/** Credentials of POST /api/v1/queue/post (main.go, redis.go, voucher.go): a proof-of-work
    challenge or a signed voucher. Requests run interleaved, one store operation at a time.
    Times are nanoseconds, voucher expiries Unix seconds. */
module QueuePost {
  import opened Text
  import opened CryptoOps

  const SECOND := 1_000_000_000
  const CHALLENGE_TTL := 300 * SECOND
  const NONCE_TTL := 600 * SECOND

  datatype Voucher = Voucher(recipientPublicKey: string, senderKeyHash: string, expiry: int, signature: string)

  datatype Request = Request(
    recipient: string,
    envelope: string,
    protection: string,
    challenge: string,
    nonce: int,
    voucher: Option<Voucher>)

  function SignedText(v: Voucher): string {
    v.senderKeyHash + [':'] + FormatInt(v.expiry)
  }

  /** The check of a voucher's signature. */
  function CheckOf(v: Voucher): Check {
    Check(v.recipientPublicKey, v.signature, SignedText(v))
  }

  predicate Signed(c: Crypto, v: Voucher) {
    Passes(c, CheckOf(v))
  }

  predicate VerifyVoucher(c: Crypto, recipient: string, v: Voucher, now: int) {
    v.expiry >= now / SECOND && c.identify(v.recipientPublicKey) == Some(recipient) && Signed(c, v)
  }

  /** A signature fixes sender and expiry, even if the sender's hash contains colons. */
  lemma SignatureFixesVoucher(c: Crypto, v: Voucher, w: Voucher)
    requires Binding(c, {CheckOf(v), CheckOf(w)}) && Signed(c, v) && Signed(c, w) && v.signature == w.signature
    ensures v.senderKeyHash == w.senderKeyHash && v.expiry == w.expiry
  {
    assert CheckOf(v).text == CheckOf(w).text;
    LastSeparatorUnique(v.senderKeyHash, FormatInt(v.expiry), w.senderKeyHash, FormatInt(w.expiry), ':');
    FormatIntInjective(v.expiry, w.expiry);
  }

  // ---- The store -------------------------------------------------------------------------

  datatype Challenge = Challenge(difficulty: nat, expires: int)

  /** memoryNonces holds used nonces under their decimal text and used vouchers under "voucher:". */
  datatype Guard = Guard(pow: map<string, Challenge>, nonces: map<string, int>)

  function MarkerKey(sig: string): string {
    "voucher:" + sig
  }

  function Issued(g: Guard, challenge: string, difficulty: nat, now: int): Guard {
    g.(pow := g.pow[challenge := Challenge(difficulty, now + CHALLENGE_TTL)])
  }

  predicate Available(g: Guard, challenge: string, now: int) {
    challenge in g.pow && !(g.pow[challenge].expires < now)
  }

  predicate Marked(g: Guard, key: string, now: int) {
    key in g.nonces && g.nonces[key] > now
  }

  function NonceUsed(g: Guard, key: string, now: int): Guard {
    if Marked(g, key, now) then g else g.(nonces := g.nonces[key := now + NONCE_TTL])
  }

  /** The time left is read before the lock, the marker's clock after it. */
  predicate Spendable(g: Guard, v: Voucher, before: int, locked: int) {
    v.expiry * SECOND - before > 0 && !Marked(g, MarkerKey(v.signature), locked)
  }

  function Spent(g: Guard, v: Voucher, before: int, locked: int): Guard {
    if Spendable(g, v, before, locked)
    then g.(nonces := g.nonces[MarkerKey(v.signature) := locked + (v.expiry * SECOND - before)])
    else g
  }

  // ---- One request ---------------------------------------------------------------------------

  datatype Stage =
    | Started
    | Took(difficulty: nat)          // the challenge is consumed
    | Cleared(difficulty: nat)       // the nonce was unused
    | Vouched                        // the voucher verified
    | Authorised
    | Refused

  datatype Post = Post(req: Request, stage: Stage)

  predicate ByPoW(r: Request) {
    r.protection == "pow" || r.protection == ""
  }

  predicate ByVoucher(r: Request) {
    r.protection == "voucher" && r.voucher.Some?
  }

  function Arrived(r: Request): Post {
    Post(r,
         if r.recipient == "" || r.envelope == "" then Refused
         else if ByPoW(r) then if r.challenge == "" || r.nonce == 0 then Refused else Started
         else if ByVoucher(r) then Started
         else Refused)
  }

  /** The next store operation or check of a request. */
  function Advance(c: Crypto, g: Guard, p: Post, before: int, locked: int): (Guard, Post) {
    var r := p.req;
    match p.stage
    case Started =>
      if ByPoW(r) then
        if Available(g, r.challenge, locked)
        then (g.(pow := g.pow - {r.challenge}), p.(stage := Took(g.pow[r.challenge].difficulty)))
        else (g, p.(stage := Refused))
      else if ByVoucher(r) && VerifyVoucher(c, r.recipient, r.voucher.value, locked) then (g, p.(stage := Vouched))
      else (g, p.(stage := Refused))
    case Took(d) =>
      (NonceUsed(g, FormatInt(r.nonce), locked),
       p.(stage := if Marked(g, FormatInt(r.nonce), locked) then Refused else Cleared(d)))
    case Cleared(d) =>
      (g, p.(stage := if VerifyPoW(c.hash, r.challenge, r.nonce, r.envelope, d) then Authorised else Refused))
    case Vouched =>
      if ByVoucher(r) then
        (Spent(g, r.voucher.value, before, locked),
         p.(stage := if Spendable(g, r.voucher.value, before, locked) then Authorised else Refused))
      else (g, p.(stage := Refused))
    case Authorised => (g, p)
    case Refused => (g, p)
  }

  /** The instants one undisturbed request reads. */
  datatype Clock = Clock(first: int, before: int, second: int)

  function Undisturbed(c: Crypto, g: Guard, r: Request, t: Clock): (Guard, Post) {
    var one := Advance(c, g, Arrived(r), t.first, t.first);
    var two := Advance(c, one.0, one.1, t.before, t.second);
    Advance(c, two.0, two.1, t.second, t.second)
  }

  class RedisClient {
    var memoryPoW: map<string, Challenge>
    var memoryNonces: map<string, int>

    function Contents(): Guard
      reads this
    {
      Guard(memoryPoW, memoryNonces)
    }

    constructor ()
      ensures Contents() == Guard(map[], map[])
    {
      memoryPoW, memoryNonces := map[], map[];
    }

    method StorePoWChallenge(challenge: string, difficulty: nat, now: int)
      modifies this
      ensures Contents() == Issued(old(Contents()), challenge, difficulty, now)
    {
      memoryPoW := memoryPoW[challenge := Challenge(difficulty, now + CHALLENGE_TTL)];
    }

    method GetPoWChallengeDifficulty(challenge: string, now: int) returns (difficulty: Option<nat>)
      modifies this
      ensures difficulty == if old(Available(Contents(), challenge, now)) then Some(old(memoryPoW[challenge].difficulty)) else None
      ensures memoryPoW == (if difficulty.Some? then old(memoryPoW) - {challenge} else old(memoryPoW))
      ensures memoryNonces == old(memoryNonces)
    {
      if challenge !in memoryPoW || memoryPoW[challenge].expires < now {
        return None;
      }
      difficulty := Some(memoryPoW[challenge].difficulty);
      memoryPoW := memoryPoW - {challenge};
    }

    method IsNonceUnique(nonce: string, now: int) returns (unique: bool)
      modifies this
      ensures unique == !old(Marked(Contents(), nonce, now))
      ensures Contents() == NonceUsed(old(Contents()), nonce, now)
    {
      if nonce in memoryNonces && memoryNonces[nonce] > now {
        return false;
      }
      memoryNonces := memoryNonces[nonce := now + NONCE_TTL];
      unique := true;
    }

    method ConsumeVoucher(v: Voucher, before: int, locked: int) returns (isFresh: bool)
      modifies this
      ensures isFresh == Spendable(old(Contents()), v, before, locked)
      ensures Contents() == Spent(old(Contents()), v, before, locked)
    {
      var ttl := v.expiry * SECOND - before;
      if ttl <= 0 {
        return false;
      }
      var key := "voucher:" + v.signature;
      if key in memoryNonces && memoryNonces[key] > locked {
        return false;
      }
      memoryNonces := memoryNonces[key := locked + ttl];
      isFresh := true;
    }

    /** The credential part of handlePostQueue, run without interference. */
    method AuthorisePost(c: Crypto, r: Request, t: Clock) returns (ok: bool)
      modifies this
      ensures (Contents(), Post(r, if ok then Authorised else Refused)) == Undisturbed(c, old(Contents()), r, t)
    {
      if r.recipient == "" || r.envelope == "" {
        return false;
      }
      if ByPoW(r) {
        if r.challenge == "" || r.nonce == 0 {
          return false;
        }
        var difficulty := GetPoWChallengeDifficulty(r.challenge, t.first);
        if difficulty.None? {
          return false;
        }
        var unique := IsNonceUnique(FormatInt(r.nonce), t.second);
        if !unique {
          return false;
        }
        return VerifyPoW(c.hash, r.challenge, r.nonce, r.envelope, difficulty.value);
      } else if r.protection == "voucher" {
        if r.voucher.None? || !VerifyVoucher(c, r.recipient, r.voucher.value, t.first) {
          return false;
        }
        ok := ConsumeVoucher(r.voucher.value, t.before, t.second);
      } else {
        return false;
      }
    }
  }

  // ---- Interleaved runs ------------------------------------------------------------------------

  datatype Issue = Issue(challenge: string, difficulty: nat, at: int)
  datatype State = State(guard: Guard, posts: seq<Post>, issues: seq<Issue>)

  datatype Event =
    | Publish(challenge: string, difficulty: nat, now: int)
    | Arrive(req: Request)
    | Step(p: nat, before: int, locked: int)

  /** The lock is held no earlier than the clock was read before it. */
  predicate InOrder(es: seq<Event>) {
    forall i :: 0 <= i < |es| && es[i].Step? ==> es[i].before <= es[i].locked
  }

  function Next(c: Crypto, s: State, e: Event): State {
    match e
    case Publish(challenge, difficulty, now) =>
      s.(guard := Issued(s.guard, challenge, difficulty, now), issues := s.issues + [Issue(challenge, difficulty, now)])
    case Arrive(req) => s.(posts := s.posts + [Arrived(req)])
    case Step(p, before, locked) =>
      if p < |s.posts| then
        var r := Advance(c, s.guard, s.posts[p], before, locked);
        s.(guard := r.0, posts := s.posts[p := r.1])
      else s
  }

  function Init(): State {
    State(Guard(map[], map[]), [], [])
  }

  function After(c: Crypto, s: State, es: seq<Event>): State
    decreases |es|
  {
    if es == [] then s else After(c, Next(c, s, es[0]), es[1..])
  }

  // ---- Counting what a credential was used for -----------------------------------------------------

  /** The credential a post rests on. */
  datatype Credential = ByChallenge(challenge: string) | BySignature(signature: string)

  predicate RestsOn(p: Post, k: Credential) {
    match k
    case ByChallenge(challenge) =>
      ByPoW(p.req) && p.req.challenge == challenge && (p.stage.Took? || p.stage.Cleared? || p.stage.Authorised?)
    case BySignature(sig) =>
      !ByPoW(p.req) && ByVoucher(p.req) && p.req.voucher.value.signature == sig && p.stage.Authorised?
  }

  function Uses(posts: seq<Post>, n: nat, k: Credential): nat
    requires n <= |posts|
  {
    if n == 0 then 0 else Uses(posts, n - 1, k) + (if RestsOn(posts[n - 1], k) then 1 else 0)
  }

  /** Posts the handler let through on a credential. */
  function Authorisations(posts: seq<Post>, n: nat, k: Credential): nat
    requires n <= |posts|
  {
    if n == 0 then 0
    else Authorisations(posts, n - 1, k) + (if RestsOn(posts[n - 1], k) && posts[n - 1].stage.Authorised? then 1 else 0)
  }

  function TimesIssued(issues: seq<Issue>, n: nat, challenge: string): nat
    requires n <= |issues|
  {
    if n == 0 then 0 else TimesIssued(issues, n - 1, challenge) + (if issues[n - 1].challenge == challenge then 1 else 0)
  }

  lemma {:induction false} AuthorisationsAreUses(posts: seq<Post>, n: nat, k: Credential)
    requires n <= |posts|
    ensures Authorisations(posts, n, k) <= Uses(posts, n, k)
  {
    if n > 0 {
      AuthorisationsAreUses(posts, n - 1, k);
    }
  }

  lemma {:induction false} UsesOfUpdate(posts: seq<Post>, p: nat, q: Post, n: nat, k: Credential)
    requires p < |posts| && n <= |posts|
    ensures Uses(posts[p := q], n, k) == Uses(posts, n, k) +
            (if p < n then (if RestsOn(q, k) then 1 else 0) - (if RestsOn(posts[p], k) then 1 else 0) else 0)
  {
    if n > 0 {
      UsesOfUpdate(posts, p, q, n - 1, k);
    }
  }

  lemma {:induction false} UsesOfAppend(posts: seq<Post>, q: Post, n: nat, k: Credential)
    requires n <= |posts|
    ensures Uses(posts + [q], n, k) == Uses(posts, n, k)
  {
    if n > 0 {
      UsesOfAppend(posts, q, n - 1, k);
    }
  }

  lemma {:induction false} IssuedOfAppend(issues: seq<Issue>, i: Issue, n: nat, challenge: string)
    requires n <= |issues|
    ensures TimesIssued(issues + [i], n, challenge) == TimesIssued(issues, n, challenge)
  {
    if n > 0 {
      IssuedOfAppend(issues, i, n - 1, challenge);
    }
  }

  function UsesIn(s: State, k: Credential): nat {
    Uses(s.posts, |s.posts|, k)
  }

  function IssuesOf(s: State, challenge: string): nat {
    TimesIssued(s.issues, |s.issues|, challenge)
  }

  /** How one event changes the uses of a credential. */
  lemma UsesStep(c: Crypto, s: State, e: Event, k: Credential)
    ensures var s' := Next(c, s, e);
            UsesIn(s', k) == UsesIn(s, k) +
            (if e.Step? && e.p < |s.posts|
             then (if RestsOn(s'.posts[e.p], k) then 1 else 0) - (if RestsOn(s.posts[e.p], k) then 1 else 0)
             else 0)
  {
    match e
    case Publish(_, _, _) =>
    case Arrive(req) => UsesOfAppend(s.posts, Arrived(req), |s.posts|, k);
    case Step(p, before, locked) =>
      if p < |s.posts| {
        UsesOfUpdate(s.posts, p, Next(c, s, e).posts[p], |s.posts|, k);
      }
  }

  // ---- Challenges ------------------------------------------------------------------------------------

  predicate Conserved(s: State, challenge: string) {
    UsesIn(s, ByChallenge(challenge)) + (if challenge in s.guard.pow then 1 else 0) <= IssuesOf(s, challenge)
  }

  lemma ConservedStep(c: Crypto, s: State, e: Event, challenge: string)
    requires Conserved(s, challenge)
    ensures Conserved(Next(c, s, e), challenge)
  {
    UsesStep(c, s, e, ByChallenge(challenge));
    if e.Publish? {
      IssuedOfAppend(s.issues, Issue(e.challenge, e.difficulty, e.now), |s.issues|, challenge);
    }
  }

  lemma {:induction false} ConservedRun(c: Crypto, s: State, es: seq<Event>, challenge: string)
    requires Conserved(s, challenge)
    ensures Conserved(After(c, s, es), challenge)
    decreases |es|
  {
    if es != [] {
      ConservedStep(c, s, es[0], challenge);
      ConservedRun(c, Next(c, s, es[0]), es[1..], challenge);
    }
  }

  /** Main result for challenges: in every interleaving a challenge lets through at most as many
      posts as it was issued, so a challenge drawn once authorises at most one. */
  lemma ChallengesAuthoriseOnce(c: Crypto, es: seq<Event>, challenge: string)
    ensures var s := After(c, Init(), es);
            Authorisations(s.posts, |s.posts|, ByChallenge(challenge)) <= IssuesOf(s, challenge)
  {
    ConservedRun(c, Init(), es, challenge);
    var s := After(c, Init(), es);
    AuthorisationsAreUses(s.posts, |s.posts|, ByChallenge(challenge));
  }

  // ---- What an authorised post has shown ------------------------------------------------------------------

  ghost predicate WasIssued(s: State, challenge: string, difficulty: nat) {
    exists at :: Issue(challenge, difficulty, at) in s.issues
  }

  /** A stored challenge was issued, and lives for five minutes from then. */
  ghost predicate StoredOk(s: State) {
    forall k :: k in s.guard.pow ==>
      Issue(k, s.guard.pow[k].difficulty, s.guard.pow[k].expires - 300 * SECOND) in s.issues
  }

  predicate Vouches(c: Crypto, r: Request)
    requires r.voucher.Some?
  {
    c.identify(r.voucher.value.recipientPublicKey) == Some(r.recipient) && Signed(c, r.voucher.value)
  }

  /** Every stage carries the evidence gathered so far. */
  ghost predicate Evident(c: Crypto, s: State, p: Post) {
    var r := p.req;
    match p.stage
    case Started => r.recipient != "" && r.envelope != "" && (ByPoW(r) || ByVoucher(r)) && (ByPoW(r) ==> r.challenge != "" && r.nonce != 0)
    case Took(d) => ByPoW(r) && r.challenge != "" && r.nonce != 0 && WasIssued(s, r.challenge, d)
    case Cleared(d) => ByPoW(r) && r.challenge != "" && r.nonce != 0 && WasIssued(s, r.challenge, d)
    case Vouched => !ByPoW(r) && ByVoucher(r) && Vouches(c, r)
    case Authorised =>
      || (ByPoW(r) && r.challenge != "" && r.nonce != 0 && exists d: nat ::
            WasIssued(s, r.challenge, d) && VerifyPoW(c.hash, r.challenge, r.nonce, r.envelope, d))
      || (!ByPoW(r) && ByVoucher(r) && Vouches(c, r))
    case Refused => true
  }

  ghost predicate AllEvident(c: Crypto, s: State) {
    && (forall i :: 0 <= i < |s.posts| ==> Evident(c, s, s.posts[i]))
    && StoredOk(s)
  }

  lemma EvidenceLasts(c: Crypto, s: State, s': State, p: Post)
    requires Evident(c, s, p) && forall i :: i in s.issues ==> i in s'.issues
    ensures Evident(c, s', p)
  {
    if p.stage.Authorised? && ByPoW(p.req) {
      var d: nat :| WasIssued(s, p.req.challenge, d) && VerifyPoW(c.hash, p.req.challenge, p.req.nonce, p.req.envelope, d);
      assert WasIssued(s', p.req.challenge, d);
    }
  }

  lemma AdvanceIsEvident(c: Crypto, s: State, p: Post, before: int, locked: int)
    requires Evident(c, s, p) && StoredOk(s)
    ensures Evident(c, s, Advance(c, s.guard, p, before, locked).1)
  {}

  lemma EvidentStep(c: Crypto, s: State, e: Event)
    requires AllEvident(c, s)
    ensures AllEvident(c, Next(c, s, e))
  {
    var s' := Next(c, s, e);
    forall i | 0 <= i < |s'.posts| ensures Evident(c, s', s'.posts[i]) {
      if e.Step? && e.p == i {
        AdvanceIsEvident(c, s, s.posts[i], e.before, e.locked);
        EvidenceLasts(c, s, s', s'.posts[i]);
      } else if i < |s.posts| {
        EvidenceLasts(c, s, s', s.posts[i]);
      }
    }
  }

  lemma {:induction false} EvidentRun(c: Crypto, s: State, es: seq<Event>)
    requires AllEvident(c, s)
    ensures AllEvident(c, After(c, s, es))
    decreases |es|
  {
    if es != [] {
      EvidentStep(c, s, es[0]);
      EvidentRun(c, Next(c, s, es[0]), es[1..]);
    }
  }

  /** Main result for admission: an authorised post solved a challenge this relay issued, at its
      issued difficulty and for its own envelope, or carries a voucher its recipient signed. */
  lemma AuthorisedPostsHaveProof(c: Crypto, es: seq<Event>, p: nat)
    requires p < |After(c, Init(), es).posts| && After(c, Init(), es).posts[p].stage.Authorised?
    ensures var s := After(c, Init(), es);
            var r := s.posts[p].req;
            || (ByPoW(r) && r.nonce != 0 && exists d: nat ::
                  WasIssued(s, r.challenge, d) && VerifyPoW(c.hash, r.challenge, r.nonce, r.envelope, d))
            || (r.protection == "voucher" && r.voucher.Some? && Vouches(c, r))
  {
    EvidentRun(c, Init(), es);
    assert Evident(c, After(c, Init(), es), After(c, Init(), es).posts[p]);
  }

  /** A challenge is only taken within five minutes of its issue. */
  lemma ChallengesAreTakenInTime(c: Crypto, es: seq<Event>, p: nat, before: int, locked: int)
    requires var s := After(c, Init(), es); p < |s.posts| && s.posts[p].stage.Started?
    requires var s := After(c, Init(), es); Next(c, s, Step(p, before, locked)).posts[p].stage.Took?
    ensures var s := After(c, Init(), es);
            exists i :: i in s.issues && i.challenge == s.posts[p].req.challenge && locked <= i.at + 300 * SECOND
  {
    EvidentRun(c, Init(), es);
    var s := After(c, Init(), es);
    var k := s.posts[p].req.challenge;
    assert Issue(k, s.guard.pow[k].difficulty, s.guard.pow[k].expires - 300 * SECOND) in s.issues;
  }

  // ---- Nonces ----------------------------------------------------------------------------------------------

  /** The step lets a post with this nonce through the nonce check. */
  predicate Clears(c: Crypto, s: State, e: Event, nonce: int) {
    && e.Step? && e.p < |s.posts| && s.posts[e.p].stage.Took? && s.posts[e.p].req.nonce == nonce
    && Next(c, s, e).posts[e.p].stage.Cleared?
  }

  predicate ClearsOnlyFrom(c: Crypto, s: State, es: seq<Event>, nonce: int, from: int)
    decreases |es|
  {
    es != [] ==> (Clears(c, s, es[0], nonce) ==> es[0].locked >= from) && ClearsOnlyFrom(c, Next(c, s, es[0]), es[1..], nonce, from)
  }

  predicate RestsUntil(s: State, nonce: int, until: int) {
    FormatInt(nonce) in s.guard.nonces && s.guard.nonces[FormatInt(nonce)] >= until
  }

  lemma NonceKeysAreNoMarkers(nonce: int, sig: string)
    ensures FormatInt(nonce) != MarkerKey(sig)
  {
    assert MarkerKey(sig)[0] == 'v';
  }

  lemma RestStep(c: Crypto, s: State, e: Event, nonce: int, until: int)
    requires RestsUntil(s, nonce, until)
    ensures RestsUntil(Next(c, s, e), nonce, until) && (Clears(c, s, e, nonce) ==> e.locked >= until)
  {
    if e.Step? && e.p < |s.posts| {
      var p := s.posts[e.p];
      if p.stage.Took? && FormatInt(p.req.nonce) == FormatInt(nonce) {
        FormatIntInjective(p.req.nonce, nonce);
      }
      if p.stage.Vouched? && ByVoucher(p.req) {
        NonceKeysAreNoMarkers(nonce, p.req.voucher.value.signature);
      }
    }
  }

  lemma {:induction false} RestRun(c: Crypto, s: State, es: seq<Event>, nonce: int, until: int)
    requires RestsUntil(s, nonce, until)
    ensures ClearsOnlyFrom(c, s, es, nonce, until)
    decreases |es|
  {
    if es != [] {
      RestStep(c, s, es[0], nonce, until);
      RestRun(c, Next(c, s, es[0]), es[1..], nonce, until);
    }
  }

  /** A nonce that was let through is refused for ten minutes, whatever happens in between and
      although vouchers write to the same map. */
  lemma NoncesRestTenMinutes(c: Crypto, s: State, e: Event, later: seq<Event>, nonce: int)
    requires Clears(c, s, e, nonce)
    ensures ClearsOnlyFrom(c, Next(c, s, e), later, nonce, e.locked + 600 * SECOND)
  {
    RestRun(c, Next(c, s, e), later, nonce, e.locked + 600 * SECOND);
  }

  // ---- Vouchers ------------------------------------------------------------------------------------------

  /** The vouchers of a run are checked with these. */
  predicate Among(checks: set<Check>, r: Request) {
    r.voucher.Some? ==> CheckOf(r.voucher.value) in checks
  }

  predicate AllAmong(checks: set<Check>, s: State) {
    forall i :: 0 <= i < |s.posts| ==> Among(checks, s.posts[i].req)
  }

  predicate Timely(checks: set<Check>, e: Event) {
    (e.Step? ==> e.before <= e.locked) && (e.Arrive? ==> Among(checks, e.req))
  }

  /** All signature checks that the vouchers of a run can call for. */
  function ChecksOf(es: seq<Event>): set<Check> {
    set e | e in es && e.Arrive? && e.req.voucher.Some? :: CheckOf(e.req.voucher.value)
  }

  /** A signature's marker exists exactly when it has been used, and outlives its voucher. */
  ghost predicate MarkersMatch(c: Crypto, checks: set<Check>, s: State, sig: string) {
    && (MarkerKey(sig) in s.guard.nonces <==> UsesIn(s, BySignature(sig)) >= 1)
    && (MarkerKey(sig) in s.guard.nonces ==>
          forall v: Voucher :: CheckOf(v) in checks && v.signature == sig && Signed(c, v) ==> s.guard.nonces[MarkerKey(sig)] >= v.expiry * SECOND)
  }

  /** The voucher a step is about to spend. */
  predicate Spends(s: State, e: Event) {
    e.Step? && e.p < |s.posts| && s.posts[e.p].stage.Vouched? && ByVoucher(s.posts[e.p].req)
  }

  /** A used voucher is spent again after its marker has lapsed, though some of its life was left
      when the remaining time was read. */
  predicate SpendsAgain(s: State, e: Event) {
    Spends(s, e) &&
    var v := s.posts[e.p].req.voucher.value;
    MarkerKey(v.signature) in s.guard.nonces && s.guard.nonces[MarkerKey(v.signature)] <= e.locked &&
    e.before < v.expiry * SECOND
  }

  /** The wait for the lock runs across the voucher's expiry. */
  predicate CrossesExpiry(s: State, e: Event) {
    Spends(s, e) && e.before < s.posts[e.p].req.voucher.value.expiry * SECOND <= e.locked
  }

  lemma SpendingAgainCrossesExpiry(c: Crypto, checks: set<Check>, s: State, e: Event)
    requires AllEvident(c, s) && AllAmong(checks, s) && Spends(s, e)
    requires MarkersMatch(c, checks, s, s.posts[e.p].req.voucher.value.signature)
    ensures SpendsAgain(s, e) ==> CrossesExpiry(s, e)
  {
    assert Evident(c, s, s.posts[e.p]);
  }

  lemma SpentMarker(c: Crypto, checks: set<Check>, g: Guard, v: Voucher, before: int, locked: int)
    requires Binding(c, checks) && CheckOf(v) in checks && Signed(c, v) && before <= locked && Spendable(g, v, before, locked)
    ensures forall w: Voucher :: CheckOf(w) in checks && w.signature == v.signature && Signed(c, w) ==>
              Spent(g, v, before, locked).nonces[MarkerKey(v.signature)] >= w.expiry * SECOND
  {
    forall w: Voucher | CheckOf(w) in checks && w.signature == v.signature && Signed(c, w)
      ensures Spent(g, v, before, locked).nonces[MarkerKey(v.signature)] >= w.expiry * SECOND
    {
      SignatureFixesVoucher(c, v, w);
    }
  }

  lemma MarkerKeysDiffer(sig: string, sig': string)
    requires MarkerKey(sig) == MarkerKey(sig')
    ensures sig == sig'
  {
    assert MarkerKey(sig)[8..] == sig && MarkerKey(sig')[8..] == sig';
  }

  /** One event: the markers stay right, and a signature's uses grow exactly when it is spent. */
  lemma MarkersStep(c: Crypto, checks: set<Check>, s: State, e: Event, sig: string)
    requires Binding(c, checks) && Timely(checks, e) && AllEvident(c, s) && AllAmong(checks, s) && MarkersMatch(c, checks, s, sig)
    ensures MarkersMatch(c, checks, Next(c, s, e), sig)
    ensures UsesIn(Next(c, s, e), BySignature(sig)) >= UsesIn(s, BySignature(sig))
    ensures UsesIn(Next(c, s, e), BySignature(sig)) > 1 ==>
              UsesIn(s, BySignature(sig)) > 1 ||
              (SpendsAgain(s, e) && s.posts[e.p].req.voucher.value.signature == sig)
    ensures SpendsAgain(s, e) && s.posts[e.p].req.voucher.value.signature == sig ==>
              UsesIn(Next(c, s, e), BySignature(sig)) > 1
  {
    UsesStep(c, s, e, BySignature(sig));
    if e.Step? && e.p < |s.posts| {
      var p := s.posts[e.p];
      assert Evident(c, s, p);
      if p.stage.Took? {
        NonceKeysAreNoMarkers(p.req.nonce, sig);
      } else if p.stage.Vouched? {
        var v := p.req.voucher.value;
        if v.signature != sig && MarkerKey(v.signature) == MarkerKey(sig) {
          MarkerKeysDiffer(v.signature, sig);
        }
        if Spendable(s.guard, v, e.before, e.locked) {
          SpentMarker(c, checks, s.guard, v, e.before, e.locked);
        }
      }
    }
  }

  ghost predicate Matched(c: Crypto, checks: set<Check>, s: State) {
    AllEvident(c, s) && AllAmong(checks, s) && forall sig :: MarkersMatch(c, checks, s, sig)
  }

  lemma MatchedStep(c: Crypto, checks: set<Check>, s: State, e: Event)
    requires Binding(c, checks) && Timely(checks, e) && Matched(c, checks, s)
    ensures Matched(c, checks, Next(c, s, e))
  {
    EvidentStep(c, s, e);
    forall sig ensures MarkersMatch(c, checks, Next(c, s, e), sig) {
      MarkersStep(c, checks, s, e, sig);
    }
  }

  ghost predicate SingleUse(s: State) {
    forall sig :: UsesIn(s, BySignature(sig)) <= 1
  }

  predicate NeverSpendsAgain(c: Crypto, s: State, es: seq<Event>)
    decreases |es|
  {
    es != [] ==> !SpendsAgain(s, es[0]) && NeverSpendsAgain(c, Next(c, s, es[0]), es[1..])
  }

  predicate NeverCrossesExpiry(c: Crypto, s: State, es: seq<Event>)
    decreases |es|
  {
    es != [] ==> !CrossesExpiry(s, es[0]) && NeverCrossesExpiry(c, Next(c, s, es[0]), es[1..])
  }

  lemma {:induction false} UsesOnlyGrow(c: Crypto, checks: set<Check>, s: State, es: seq<Event>, sig: string)
    requires Binding(c, checks) && Matched(c, checks, s) && forall i :: 0 <= i < |es| ==> Timely(checks, es[i])
    ensures UsesIn(After(c, s, es), BySignature(sig)) >= UsesIn(s, BySignature(sig))
    decreases |es|
  {
    if es != [] {
      MatchedStep(c, checks, s, es[0]);
      MarkersStep(c, checks, s, es[0], sig);
      UsesOnlyGrow(c, checks, Next(c, s, es[0]), es[1..], sig);
    }
  }

  lemma SingleUseStep(c: Crypto, checks: set<Check>, s: State, e: Event)
    requires Binding(c, checks) && Timely(checks, e) && Matched(c, checks, s) && SingleUse(s)
    ensures SingleUse(Next(c, s, e)) <==> !SpendsAgain(s, e)
  {
    if SpendsAgain(s, e) {
      MarkersStep(c, checks, s, e, s.posts[e.p].req.voucher.value.signature);
    } else {
      forall sig ensures UsesIn(Next(c, s, e), BySignature(sig)) <= 1 {
        MarkersStep(c, checks, s, e, sig);
      }
    }
  }

  lemma {:induction false} SingleUseRun(c: Crypto, checks: set<Check>, s: State, es: seq<Event>)
    requires Binding(c, checks) && Matched(c, checks, s) && SingleUse(s) && forall i :: 0 <= i < |es| ==> Timely(checks, es[i])
    ensures SingleUse(After(c, s, es)) <==> NeverSpendsAgain(c, s, es)
    decreases |es|
  {
    if es != [] {
      var e, t := es[0], Next(c, s, es[0]);
      SingleUseStep(c, checks, s, e);
      MatchedStep(c, checks, s, e);
      if SpendsAgain(s, e) {
        var sig := s.posts[e.p].req.voucher.value.signature;
        MarkersStep(c, checks, s, e, sig);
        UsesOnlyGrow(c, checks, t, es[1..], sig);
      } else {
        SingleUseRun(c, checks, t, es[1..]);
      }
    }
  }

  lemma {:induction false} CrossingIsNeeded(c: Crypto, checks: set<Check>, s: State, es: seq<Event>)
    requires Binding(c, checks) && Matched(c, checks, s) && forall i :: 0 <= i < |es| ==> Timely(checks, es[i])
    requires NeverCrossesExpiry(c, s, es)
    ensures NeverSpendsAgain(c, s, es)
    decreases |es|
  {
    if es != [] {
      if Spends(s, es[0]) {
        var sig := s.posts[es[0].p].req.voucher.value.signature;
        assert MarkersMatch(c, checks, s, sig);
        SpendingAgainCrossesExpiry(c, checks, s, es[0]);
      }
      MatchedStep(c, checks, s, es[0]);
      CrossingIsNeeded(c, checks, Next(c, s, es[0]), es[1..]);
    }
  }

  lemma FreshIsMatched(c: Crypto, checks: set<Check>)
    ensures Matched(c, checks, Init()) && SingleUse(Init())
  {}

  /** Main result for vouchers, exactly: in every interleaving each signature string lets through
      at most one post if and only if nobody spends a used voucher whose marker has lapsed by the
      time the lock is held while its remaining life was read as positive before. */
  lemma VouchersAuthoriseOnceExactly(c: Crypto, es: seq<Event>)
    requires Binding(c, ChecksOf(es)) && InOrder(es)
    ensures SingleUse(After(c, Init(), es)) <==> NeverSpendsAgain(c, Init(), es)
  {
    FreshIsMatched(c, ChecksOf(es));
    SingleUseRun(c, ChecksOf(es), Init(), es);
  }

  /** In particular it does whenever no wait for the lock runs across a voucher's expiry: the
      marker lapses, but never before the voucher itself. */
  lemma PromptVouchersAuthoriseOnce(c: Crypto, es: seq<Event>, sig: string)
    requires Binding(c, ChecksOf(es)) && InOrder(es) && NeverCrossesExpiry(c, Init(), es)
    ensures var s := After(c, Init(), es); Authorisations(s.posts, |s.posts|, BySignature(sig)) <= 1
  {
    FreshIsMatched(c, ChecksOf(es));
    CrossingIsNeeded(c, ChecksOf(es), Init(), es);
    VouchersAuthoriseOnceExactly(c, es);
    var s := After(c, Init(), es);
    assert UsesIn(s, BySignature(sig)) <= 1;
    AuthorisationsAreUses(s.posts, |s.posts|, BySignature(sig));
  }

  lemma AfterStep(c: Crypto, s: State, e: Event, es: seq<Event>)
    ensures After(c, s, [e] + es) == After(c, Next(c, s, e), es)
  {
    assert ([e] + es)[1..] == es;
  }

  lemma AfterSix(c: Crypto, s: State, d: Event, e: Event, f: Event, g: Event, h: Event, i: Event)
    ensures After(c, s, [d, e, f, g, h, i]) == Next(c, Next(c, Next(c, Next(c, Next(c, Next(c, s, d), e), f), g), h), i)
  {
    assert [d, e, f, g, h, i] == [d] + [e, f, g, h, i] && [e, f, g, h, i] == [e] + [f, g, h, i];
    assert [f, g, h, i] == [f] + [g, h, i] && [g, h, i] == [g] + [h, i] && [h, i] == [h] + [i] && [i] == [i] + [];
    AfterStep(c, s, d, [e, f, g, h, i]);
    AfterStep(c, Next(c, s, d), e, [f, g, h, i]);
    AfterStep(c, Next(c, Next(c, s, d), e), f, [g, h, i]);
    AfterStep(c, Next(c, Next(c, Next(c, s, d), e), f), g, [h, i]);
    AfterStep(c, Next(c, Next(c, Next(c, Next(c, s, d), e), f), g), h, [i]);
    AfterStep(c, Next(c, Next(c, Next(c, Next(c, Next(c, s, d), e), f), g), h), i, []);
  }

  /** The request that the window lets through twice: a well-formed one with a valid voucher. */
  predicate Presents(c: Crypto, r: Request, v: Voucher) {
    && r.recipient != "" && r.envelope != "" && r.protection == "voucher" && r.voucher == Some(v)
    && c.identify(v.recipientPublicKey) == Some(r.recipient) && Signed(c, v)
  }

  /** The window is real, for every voucher: a second before its expiry two requests present it and
      one spends it; the other reads the clock just before the expiry and gets the lock at it. */
  lemma WaitingAcrossExpirySpendsTwice(c: Crypto, r: Request, v: Voucher) returns (es: seq<Event>)
    requires Presents(c, r, v)
    ensures InOrder(es)
    ensures var s := After(c, Init(), es);
            |s.posts| == 2 && Authorisations(s.posts, 2, BySignature(v.signature)) == 2
  {
    var end := v.expiry * SECOND;
    var early := end - SECOND;
    var verify0, verify1 := Step(0, early, early), Step(1, early, early);
    var spend0, spend1 := Step(0, early, early), Step(1, end - 1, end);
    es := [Arrive(r), Arrive(r), verify0, verify1, spend0, spend1];
    AfterSix(c, Init(), Arrive(r), Arrive(r), verify0, verify1, spend0, spend1);
    var g := Guard(map[], map[]);
    var s2 := State(g, [Post(r, Started), Post(r, Started)], []);
    assert Next(c, Next(c, Init(), Arrive(r)), Arrive(r)) == s2;
    assert VerifyVoucher(c, r.recipient, v, early);
    var s4 := State(g, [Post(r, Vouched), Post(r, Vouched)], []);
    assert Next(c, Next(c, s2, verify0), verify1) == s4;
    var s5 := State(Guard(map[], map[MarkerKey(v.signature) := end]), [Post(r, Authorised), Post(r, Vouched)], []);
    assert Next(c, s4, spend0) == s5;
    var s6 := Next(c, s5, spend1);
    assert s6.posts == [Post(r, Authorised), Post(r, Authorised)];
    assert Authorisations(s6.posts, 1, BySignature(v.signature)) == 1;
  }
}
