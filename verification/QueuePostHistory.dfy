/** What lets a request through, read off the history alone: which challenges were issued and not taken
    since, when a nonce was last let through, and how long the last use of a signature keeps it. */
module QueuePostHistory {
  import opened Text
  import opened CryptoOps
  import opened QueuePost

  /** The relay after the first n events. */
  function StateAt(c: Crypto, es: seq<Event>, n: nat): State
    requires n <= |es|
  {
    if n == 0 then Init() else Next(c, StateAt(c, es, n - 1), es[n - 1])
  }

  lemma AfterOne(c: Crypto, s: State, es: seq<Event>, n: nat, t: State)
    requires n < |es| && t == Next(c, s, es[n])
    ensures After(c, s, es[n..]) == After(c, t, es[n + 1..])
  {
    assert es[n..][1..] == es[n + 1..];
  }

  lemma {:induction false} StatesLeadToAfter(c: Crypto, es: seq<Event>, n: nat)
    requires n <= |es|
    ensures After(c, StateAt(c, es, n), es[n..]) == StateAt(c, es, |es|)
    decreases |es| - n
  {
    if n < |es| {
      AfterOne(c, StateAt(c, es, n), es, n, StateAt(c, es, n + 1));
      StatesLeadToAfter(c, es, n + 1);
    }
  }

  // ---- The history of a credential -------------------------------------------------------------

  /** This step hands a stored challenge to a post. */
  predicate Takes(c: Crypto, s: State, e: Event, challenge: string) {
    && e.Step? && e.p < |s.posts| && s.posts[e.p].stage.Started? && s.posts[e.p].req.challenge == challenge
    && Next(c, s, e).posts[e.p].stage.Took?
  }

  /** This step lets a post through on a signature. */
  predicate UsesUp(c: Crypto, s: State, e: Event, sig: string) {
    && Spends(s, e) && s.posts[e.p].req.voucher.value.signature == sig
    && Next(c, s, e).posts[e.p].stage.Authorised?
  }

  /** The last issue of a challenge, unless a post has taken it since. */
  function OpenIssue(c: Crypto, es: seq<Event>, n: nat, challenge: string): Option<Issue>
    requires n <= |es|
  {
    if n == 0 then None
    else
      var e := es[n - 1];
      if e.Publish? && e.challenge == challenge then Some(Issue(challenge, e.difficulty, e.now))
      else if Takes(c, StateAt(c, es, n - 1), e, challenge) then None
      else OpenIssue(c, es, n - 1, challenge)
  }

  /** When a post with this nonce was last let through the nonce check. */
  function LastClear(c: Crypto, es: seq<Event>, n: nat, nonce: int): Option<int>
    requires n <= |es|
  {
    if n == 0 then None
    else if Clears(c, StateAt(c, es, n - 1), es[n - 1], nonce) then Some(es[n - 1].locked)
    else LastClear(c, es, n - 1, nonce)
  }

  /** Until when the last use of a signature keeps it: the life that its voucher had left when the time
      was read, counted from when the lock was held. */
  function KeptUntil(c: Crypto, es: seq<Event>, n: nat, sig: string): Option<int>
    requires n <= |es|
  {
    if n == 0 then None
    else
      var s, e := StateAt(c, es, n - 1), es[n - 1];
      if UsesUp(c, s, e, sig) then Some(e.locked + (s.posts[e.p].req.voucher.value.expiry * SECOND - e.before))
      else KeptUntil(c, es, n - 1, sig)
  }

  // ---- The store is that history -------------------------------------------------------------------

  lemma {:induction false} StoredChallenge(c: Crypto, es: seq<Event>, n: nat, challenge: string)
    requires n <= |es|
    ensures var g, i := StateAt(c, es, n).guard, OpenIssue(c, es, n, challenge);
            && (challenge in g.pow <==> i.Some?)
            && (i.Some? ==> g.pow[challenge] == Challenge(i.value.difficulty, i.value.at + 300 * SECOND))
  {
    if n > 0 {
      StoredChallenge(c, es, n - 1, challenge);
    }
  }

  lemma {:induction false} StoredNonce(c: Crypto, es: seq<Event>, n: nat, nonce: int)
    requires n <= |es|
    ensures var g, at := StateAt(c, es, n).guard, LastClear(c, es, n, nonce);
            && (FormatInt(nonce) in g.nonces <==> at.Some?)
            && (at.Some? ==> g.nonces[FormatInt(nonce)] == at.value + 600 * SECOND)
  {
    if n > 0 {
      StoredNonce(c, es, n - 1, nonce);
      var s, e := StateAt(c, es, n - 1), es[n - 1];
      if e.Step? && e.p < |s.posts| {
        var p := s.posts[e.p];
        if p.stage.Took? && FormatInt(p.req.nonce) == FormatInt(nonce) {
          FormatIntInjective(p.req.nonce, nonce);
        }
        if Spends(s, e) {
          NonceKeysAreNoMarkers(nonce, p.req.voucher.value.signature);
        }
      }
    }
  }

  lemma {:induction false} StoredMarker(c: Crypto, es: seq<Event>, n: nat, sig: string)
    requires n <= |es|
    ensures var g, until := StateAt(c, es, n).guard, KeptUntil(c, es, n, sig);
            && (MarkerKey(sig) in g.nonces <==> until.Some?)
            && (until.Some? ==> g.nonces[MarkerKey(sig)] == until.value)
  {
    if n > 0 {
      StoredMarker(c, es, n - 1, sig);
      var s, e := StateAt(c, es, n - 1), es[n - 1];
      if e.Step? && e.p < |s.posts| {
        var p := s.posts[e.p];
        NonceKeysAreNoMarkers(p.req.nonce, sig);
        if Spends(s, e) && MarkerKey(p.req.voucher.value.signature) == MarkerKey(sig) {
          MarkerKeysDiffer(p.req.voucher.value.signature, sig);
        }
      }
    }
  }

  // ---- Who is let through ----------------------------------------------------------------------------

  /** The challenge was issued at most 300 seconds ago and not taken since, the nonce was not let through
      within 600 seconds, and the digest meets the difficulty of that issue. */
  predicate EarnsByWork(c: Crypto, es: seq<Event>, r: Request, t: Clock) {
    && r.protection in {"pow", ""} && r.challenge != "" && r.nonce != 0
    && var issue, cleared := OpenIssue(c, es, |es|, r.challenge), LastClear(c, es, |es|, r.nonce);
       && issue.Some? && t.first <= issue.value.at + 300 * SECOND
       && (cleared.Some? ==> cleared.value + 600 * SECOND <= t.second)
       && VerifyPoW(c.hash, r.challenge, r.nonce, r.envelope, issue.value.difficulty)
  }

  /** The voucher is signed by a key that stands for the recipient and has life left, and no earlier use
      of its signature keeps it any more. */
  predicate EarnsByVoucher(c: Crypto, es: seq<Event>, r: Request, t: Clock) {
    && r.protection == "voucher" && r.voucher.Some?
    && var v := r.voucher.value;
       var kept := KeptUntil(c, es, |es|, v.signature);
       && c.identify(v.recipientPublicKey) == Some(r.recipient)
       && c.verify(v.recipientPublicKey, v.signature, v.senderKeyHash + ":" + FormatInt(v.expiry))
       && t.first / SECOND <= v.expiry && t.before < v.expiry * SECOND
       && (kept.Some? ==> kept.value <= t.second)
  }

  lemma WorkIsJudged(c: Crypto, g: Guard, r: Request, t: Clock)
    requires r.recipient != "" && r.envelope != "" && ByPoW(r)
    ensures Undisturbed(c, g, r, t).1.stage.Authorised? <==>
            && r.challenge != "" && r.nonce != 0 && Available(g, r.challenge, t.first)
            && !Marked(g, FormatInt(r.nonce), t.second)
            && VerifyPoW(c.hash, r.challenge, r.nonce, r.envelope, g.pow[r.challenge].difficulty)
  {}

  lemma VoucherIsJudged(c: Crypto, g: Guard, r: Request, t: Clock)
    requires r.recipient != "" && r.envelope != "" && !ByPoW(r) && ByVoucher(r)
    ensures Undisturbed(c, g, r, t).1.stage.Authorised? <==>
            VerifyVoucher(c, r.recipient, r.voucher.value, t.first) && Spendable(g, r.voucher.value, t.before, t.second)
  {}

  lemma OthersAreRefused(c: Crypto, g: Guard, r: Request, t: Clock)
    requires r.recipient == "" || r.envelope == "" || (!ByPoW(r) && !ByVoucher(r))
    ensures !Undisturbed(c, g, r, t).1.stage.Authorised?
  {}

  /** Main result, for every history of interleaved requests: a request that then runs undisturbed is let
      through if and only if it names a recipient and an envelope and earns it by work or by a voucher. */
  lemma AuthorisedExactly(c: Crypto, es: seq<Event>, r: Request, t: Clock)
    ensures Undisturbed(c, After(c, Init(), es).guard, r, t).1.stage.Authorised? <==>
            r.recipient != "" && r.envelope != "" && (EarnsByWork(c, es, r, t) || EarnsByVoucher(c, es, r, t))
  {
    StatesLeadToAfter(c, es, 0);
    assert es[0..] == es;
    var g := After(c, Init(), es).guard;
    if r.recipient == "" || r.envelope == "" || (!ByPoW(r) && !ByVoucher(r)) {
      OthersAreRefused(c, g, r, t);
    } else if ByPoW(r) {
      WorkIsJudged(c, g, r, t);
      StoredChallenge(c, es, |es|, r.challenge);
      StoredNonce(c, es, |es|, r.nonce);
    } else {
      VoucherIsJudged(c, g, r, t);
      StoredMarker(c, es, |es|, r.voucher.value.signature);
    }
  }
}
