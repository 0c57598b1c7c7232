/** The shared expiry map of the in-memory Redis mode (redis.go). Queue blocks, upload and story
    throttles, file tokens, cached entitlements and integrity nonces all keep their expiry in
    memoryBlocks, told apart only by the text of the key. */
module MemoryBlocks {
  import opened Text

  const SECOND := 1_000_000_000
  const NUKE_BLOCK_TTL := 24 * 3600 * SECOND
  const FILE_TOKEN_TTL := 600 * SECOND

  /** What an entry is about. */
  datatype Name =
    | Queue(id: string)
    | LargeUpload(id: string)
    | StoryFeed(id: string)
    | StoryReaction(id: string, storyID: string)
    | FileToken(token: string)
    | Entitlement(id: string)
    | IntegrityNonce(keyHash: string)

  function Tag(n: Name): string {
    match n
    case Queue(_) => ""
    case LargeUpload(_) => "largeup"
    case StoryFeed(_) => "storyfeed"
    case StoryReaction(_, _) => "storyreact"
    case FileToken(_) => "filetok"
    case Entitlement(_) => "entitlement"
    case IntegrityNonce(_) => "integrity_nonce"
  }

  function Rest(n: Name): string {
    match n
    case StoryReaction(id, storyID) => id + [':'] + storyID
    case Queue(id) => id
    case LargeUpload(id) => id
    case StoryFeed(id) => id
    case FileToken(token) => token
    case Entitlement(id) => id
    case IntegrityNonce(keyHash) => keyHash
  }

  /** Queue blocks use the bare id, everything else a tag and a colon. */
  function KeyOf(n: Name): string {
    if n.Queue? then n.id else Tag(n) + [':'] + Rest(n)
  }

  // ---- Which names are told apart -----------------------------------------------------

  predicate Reserved(key: string) {
    || HasPrefix(key, "largeup:")
    || HasPrefix(key, "storyfeed:")
    || (HasPrefix(key, "storyreact:") && ':' in key[11..])
    || HasPrefix(key, "filetok:")
    || HasPrefix(key, "entitlement:")
    || HasPrefix(key, "integrity_nonce:")
  }

  predicate WellFormed(n: Name) {
    match n
    case Queue(id) => !Reserved(id)
    case StoryReaction(id, _) => ':' !in id
    case Entitlement(id) => !HasPrefix(id, "integrity_nonce:")
    case _ => true
  }

  lemma PrefixHasColon(key: string, p: string)
    requires ':' in p
    ensures HasPrefix(key, p) ==> ':' in key
  {
    var i :| 0 <= i < |p| && p[i] == ':';
    if HasPrefix(key, p) {
      assert key[i] == key[..|p|][i];
    }
  }

  lemma ReservedHasColon(key: string)
    ensures Reserved(key) ==> ':' in key
    ensures HasPrefix(key, "integrity_nonce:") ==> ':' in key
  {
    PrefixHasColon(key, "largeup:");
    PrefixHasColon(key, "storyfeed:");
    PrefixHasColon(key, "storyreact:");
    PrefixHasColon(key, "filetok:");
    PrefixHasColon(key, "entitlement:");
    PrefixHasColon(key, "integrity_nonce:");
  }

  /** Every id without a colon is well formed, whatever the story id, token or key hash is. */
  lemma ColonFreeIsWellFormed(n: Name)
    requires n.Queue? || n.StoryReaction? || n.Entitlement? ==> ':' !in n.id
    ensures WellFormed(n)
  {
    if n.Queue? || n.Entitlement? {
      ReservedHasColon(n.id);
    }
  }

  lemma KeyStartsWithTag(n: Name)
    requires !n.Queue?
    ensures HasPrefix(KeyOf(n), Tag(n) + [':']) && KeyOf(n)[|Tag(n)| + 1..] == Rest(n)
  {
    var t := Tag(n) + [':'];
    assert KeyOf(n) == t + Rest(n);
  }

  lemma TaggedKeysAreReserved(n: Name)
    requires !n.Queue?
    ensures Reserved(KeyOf(n))
  {
    KeyStartsWithTag(n);
    if n.StoryReaction? {
      assert Rest(n)[|n.id|] == ':';
    }
  }

  lemma TagSplits(key: string, tag: string) returns (rest: string)
    requires HasPrefix(key, tag + [':'])
    ensures key == tag + [':'] + rest && rest == key[|tag| + 1..]
  {
    rest := key[|tag| + 1..];
  }

  lemma {:induction false} FirstColon(s: string) returns (i: nat)
    requires ':' in s
    ensures i < |s| && s[i] == ':' && ':' !in s[..i]
  {
    i := 0;
    if s[0] != ':' {
      var j := FirstColon(s[1..]);
      i := j + 1;
      assert s[..i] == [s[0]] + s[1..][..j];
    }
  }

  lemma TagsWithColon()
    ensures "largeup:" == "largeup" + [':'] && "storyfeed:" == "storyfeed" + [':']
    ensures "storyreact:" == "storyreact" + [':'] && "filetok:" == "filetok" + [':']
    ensures "entitlement:" == "entitlement" + [':'] && "integrity_nonce:" == "integrity_nonce" + [':']
  {}

  /** The name, other than a queue block, that a reserved key stands for. */
  lemma NameOfReserved(key: string) returns (n: Name)
    requires Reserved(key)
    ensures !n.Queue? && KeyOf(n) == key
  {
    TagsWithColon();
    if HasPrefix(key, "largeup:") {
      var rest := TagSplits(key, "largeup");
      n := LargeUpload(rest);
    } else if HasPrefix(key, "storyfeed:") {
      var rest := TagSplits(key, "storyfeed");
      n := StoryFeed(rest);
    } else if HasPrefix(key, "filetok:") {
      var rest := TagSplits(key, "filetok");
      n := FileToken(rest);
    } else if HasPrefix(key, "entitlement:") {
      var rest := TagSplits(key, "entitlement");
      n := Entitlement(rest);
    } else if HasPrefix(key, "integrity_nonce:") {
      var rest := TagSplits(key, "integrity_nonce");
      n := IntegrityNonce(rest);
    } else {
      var rest := TagSplits(key, "storyreact");
      var i := FirstColon(rest);
      n := StoryReaction(rest[..i], rest[i + 1..]);
      assert rest == rest[..i] + [':'] + rest[i + 1..];
    }
  }

  /** A queue id shares its entry with something else exactly when it reads like a tagged key. */
  lemma QueueKeyCollidesExactly(id: string)
    ensures (exists n: Name :: !n.Queue? && KeyOf(n) == id) <==> Reserved(id)
  {
    if Reserved(id) {
      var n := NameOfReserved(id);
    }
    if n: Name :| !n.Queue? && KeyOf(n) == id {
      TaggedKeysAreReserved(n);
    }
  }

  lemma TagsDiffer(a: Name, b: Name)
    requires !a.Queue? && !b.Queue? && Tag(a) == Tag(b) && Rest(a) == Rest(b)
    requires a.StoryReaction? ==> ':' !in a.id
    requires b.StoryReaction? ==> ':' !in b.id
    ensures a == b
  {
    assert |Tag(a)| == |Tag(b)| && Tag(a)[0] == Tag(b)[0];
    if a.StoryReaction? && b.StoryReaction? {
      FirstSeparatorUnique(a.id, a.storyID, b.id, b.storyID, ':');
    }
  }

  /** Main fact: among well-formed names the key determines the name. */
  lemma KeysAreInjective(a: Name, b: Name)
    requires WellFormed(a) && WellFormed(b) && KeyOf(a) == KeyOf(b)
    ensures a == b
  {
    if !a.Queue? {
      TaggedKeysAreReserved(a);
    }
    if !b.Queue? {
      TaggedKeysAreReserved(b);
    }
    if !a.Queue? && !b.Queue? {
      FirstSeparatorUnique(Tag(a), Rest(a), Tag(b), Rest(b), ':');
      TagsDiffer(a, b);
    }
  }

  // ---- File-token values ----------------------------------------------------------------

  function JoinTicket(messageID: string, userID: string): string {
    messageID + [':'] + userID
  }

  function SplitTicket(val: string): (string, string) {
    var idx := LastIndex(val, ':');
    if idx < 0 then ("", "") else (val[..idx], val[idx + 1..])
  }

  lemma {:induction false} TailAfterLastIndex(s: string, c: char)
    ensures c !in s[LastIndex(s, c) + 1..]
  {
    if |s| > 0 && s[|s| - 1] != c {
      var n := |s| - 1;
      TailAfterLastIndex(s[..n], c);
      var i := LastIndex(s[..n], c) + 1;
      assert s[i..] == s[..n][i..] + [s[n]];
    }
  }

  /** The parser gives back the message id and the user id exactly when the user id has no
      colon; the message id may be any text. */
  lemma TicketRoundTripExactly(messageID: string, userID: string)
    ensures SplitTicket(JoinTicket(messageID, userID)) == (messageID, userID) <==> ':' !in userID
  {
    if ':' !in userID {
      LastIndexOfJoin(messageID, ':', userID);
      var val := JoinTicket(messageID, userID);
      assert val[..|messageID|] == messageID && val[|messageID| + 1..] == userID;
    } else {
      var val := JoinTicket(messageID, userID);
      TailAfterLastIndex(val, ':');
      assert val[|messageID|] == ':';
      assert val[0..] == val;
    }
  }

  // ---- The operations on the shared maps --------------------------------------------------

  datatype Store = Store(blocks: map<string, int>, tunnels: map<string, string>, entitlements: map<string, string>)

  datatype Op =
    | BlockQueue(id: string)
    | UnblockQueue(id: string)
    | IsQueueBlocked(id: string)
    | AllowLargeUpload(id: string, cooldown: int)
    | AllowFeed(id: string, cooldown: int)
    | AllowReaction(id: string, storyID: string, cooldown: int)
    | StoreFileToken(token: string, messageID: string, userID: string)
    | GetFileToken(token: string)
    | StoreEntitlement(id: string, hash: string, ttl: int)
    | GetEntitlementHash(id: string)
    | StoreIntegrityNonce(keyHash: string, nonce: string, ttl: int)
    | GetIntegrityNonce(keyHash: string)
    | DeleteIntegrityNonce(keyHash: string)

  datatype Answer = Done | Verdict(yes: bool) | Word(text: string) | Ticket(messageID: string, userID: string)

  /** The name an operation is about. */
  function Target(op: Op): Name {
    match op
    case BlockQueue(id) => Queue(id)
    case UnblockQueue(id) => Queue(id)
    case IsQueueBlocked(id) => Queue(id)
    case AllowLargeUpload(id, _) => LargeUpload(id)
    case AllowFeed(id, _) => StoryFeed(id)
    case AllowReaction(id, storyID, _) => StoryReaction(id, storyID)
    case StoreFileToken(token, _, _) => FileToken(token)
    case GetFileToken(token) => FileToken(token)
    case StoreEntitlement(id, _, _) => Entitlement(id)
    case GetEntitlementHash(id) => Entitlement(id)
    case StoreIntegrityNonce(keyHash, _, _) => IntegrityNonce(keyHash)
    case GetIntegrityNonce(keyHash) => IntegrityNonce(keyHash)
    case DeleteIntegrityNonce(keyHash) => IntegrityNonce(keyHash)
  }

  /** Go's map read: "" for a missing key. */
  function Lookup(m: map<string, string>, key: string): string {
    if key in m then m[key] else ""
  }

  /** An entry that has not lapsed: its expiry is not before now. */
  predicate Live(m: map<string, int>, key: string, now: int) {
    key in m && !(m[key] < now)
  }

  predicate Cooling(m: map<string, int>, key: string, now: int) {
    key in m && m[key] > now
  }

  function Gate(s: Store, key: string, cooldown: int, now: int): (Store, Answer) {
    if Cooling(s.blocks, key, now) then (s, Verdict(false))
    else (s.(blocks := s.blocks[key := now + cooldown]), Verdict(true))
  }

  function Perform(s: Store, op: Op, now: int): (Store, Answer) {
    var key := KeyOf(Target(op));
    match op
    case BlockQueue(_) => (s.(blocks := s.blocks[key := now + NUKE_BLOCK_TTL]), Done)
    case UnblockQueue(_) => (s.(blocks := s.blocks - {key}), Done)
    case IsQueueBlocked(_) => (s, Verdict(Live(s.blocks, key, now)))
    case AllowLargeUpload(_, cooldown) => Gate(s, key, cooldown, now)
    case AllowFeed(_, cooldown) => Gate(s, key, cooldown, now)
    case AllowReaction(_, _, cooldown) => Gate(s, key, cooldown, now)
    case StoreFileToken(_, messageID, userID) =>
      (s.(blocks := s.blocks[key := now + FILE_TOKEN_TTL],
          tunnels := s.tunnels[key := JoinTicket(messageID, userID)]), Done)
    case GetFileToken(_) =>
      var t := SplitTicket(Lookup(s.tunnels, key));
      (s, if Live(s.blocks, key, now) then Ticket(t.0, t.1) else Ticket("", ""))
    case StoreEntitlement(id, hash, ttl) =>
      (s.(blocks := s.blocks[key := now + ttl], entitlements := s.entitlements[id := hash]), Done)
    case GetEntitlementHash(id) =>
      (s, Word(if Live(s.blocks, key, now) then Lookup(s.entitlements, id) else ""))
    case StoreIntegrityNonce(_, nonce, ttl) =>
      (s.(blocks := s.blocks[key := now + ttl], entitlements := s.entitlements[key := nonce]), Done)
    case GetIntegrityNonce(_) =>
      (s, Word(if Live(s.blocks, key, now) then Lookup(s.entitlements, key) else ""))
    case DeleteIntegrityNonce(_) =>
      (s.(blocks := s.blocks - {key}, entitlements := s.entitlements - {key}), Done)
  }

  class RedisClient {
    var memoryBlocks: map<string, int>
    var memoryTunnels: map<string, string>
    var memoryEntitlements: map<string, string>

    function Contents(): Store
      reads this
    {
      Store(memoryBlocks, memoryTunnels, memoryEntitlements)
    }

    constructor ()
      ensures Contents() == Store(map[], map[], map[])
    {
      memoryBlocks, memoryTunnels, memoryEntitlements := map[], map[], map[];
    }

    method BlockQueue(userID: string, now: int)
      modifies this
      ensures (Contents(), Done) == Perform(old(Contents()), Op.BlockQueue(userID), now)
    {
      memoryBlocks := memoryBlocks[userID := now + NUKE_BLOCK_TTL];
    }

    method UnblockQueue(userID: string, now: int)
      modifies this
      ensures (Contents(), Done) == Perform(old(Contents()), Op.UnblockQueue(userID), now)
    {
      memoryBlocks := memoryBlocks - {userID};
    }

    method IsQueueBlocked(userID: string, now: int) returns (blocked: bool)
      ensures (Contents(), Verdict(blocked)) == Perform(Contents(), Op.IsQueueBlocked(userID), now)
    {
      if userID !in memoryBlocks {
        return false;
      }
      blocked := !(memoryBlocks[userID] < now);
    }

    method AllowLargeUpload(senderID: string, cooldown: int, now: int) returns (allowed: bool)
      modifies this
      ensures (Contents(), Verdict(allowed)) == Perform(old(Contents()), Op.AllowLargeUpload(senderID, cooldown), now)
    {
      var key := "largeup:" + senderID;
      assert key == KeyOf(LargeUpload(senderID));
      allowed := AllowAction(key, cooldown, now);
    }

    method AllowAction(key: string, cooldown: int, now: int) returns (allowed: bool)
      modifies this
      ensures (Contents(), Verdict(allowed)) == Gate(old(Contents()), key, cooldown, now)
    {
      if key in memoryBlocks && memoryBlocks[key] > now {
        return false;
      }
      memoryBlocks := memoryBlocks[key := now + cooldown];
      allowed := true;
    }

    method StoreFileToken(token: string, messageID: string, userID: string, now: int)
      modifies this
      ensures (Contents(), Done) == Perform(old(Contents()), Op.StoreFileToken(token, messageID, userID), now)
    {
      var key := "filetok:" + token;
      assert key == KeyOf(FileToken(token));
      memoryTunnels := memoryTunnels[key := messageID + ":" + userID];
      memoryBlocks := memoryBlocks[key := now + FILE_TOKEN_TTL];
    }

    method GetFileToken(token: string, now: int) returns (messageID: string, userID: string)
      ensures (Contents(), Ticket(messageID, userID)) == Perform(Contents(), Op.GetFileToken(token), now)
    {
      var key := "filetok:" + token;
      assert key == KeyOf(FileToken(token));
      var val := Lookup(memoryTunnels, key);
      if key !in memoryBlocks || memoryBlocks[key] < now {
        return "", "";
      }
      var idx := LastIndex(val, ':');
      if idx < 0 {
        return "", "";
      }
      messageID, userID := val[..idx], val[idx + 1..];
    }

    method StoreEntitlement(userID: string, hash: string, ttl: int, now: int)
      modifies this
      ensures (Contents(), Done) == Perform(old(Contents()), Op.StoreEntitlement(userID, hash, ttl), now)
    {
      assert "entitlement:" + userID == KeyOf(Entitlement(userID));
      memoryEntitlements := memoryEntitlements[userID := hash];
      memoryBlocks := memoryBlocks["entitlement:" + userID := now + ttl];
    }

    method GetEntitlementHash(userID: string, now: int) returns (hash: string)
      ensures (Contents(), Word(hash)) == Perform(Contents(), Op.GetEntitlementHash(userID), now)
    {
      var key := "entitlement:" + userID;
      assert key == KeyOf(Entitlement(userID));
      if key !in memoryBlocks || memoryBlocks[key] < now {
        return "";
      }
      hash := Lookup(memoryEntitlements, userID);
    }

    method StoreIntegrityNonce(keyHash: string, nonce: string, ttl: int, now: int)
      modifies this
      ensures (Contents(), Done) == Perform(old(Contents()), Op.StoreIntegrityNonce(keyHash, nonce, ttl), now)
    {
      var key := "integrity_nonce:" + keyHash;
      assert key == KeyOf(IntegrityNonce(keyHash));
      memoryEntitlements := memoryEntitlements[key := nonce];
      memoryBlocks := memoryBlocks[key := now + ttl];
    }

    method GetIntegrityNonce(keyHash: string, now: int) returns (nonce: string)
      ensures (Contents(), Word(nonce)) == Perform(Contents(), Op.GetIntegrityNonce(keyHash), now)
    {
      var key := "integrity_nonce:" + keyHash;
      assert key == KeyOf(IntegrityNonce(keyHash));
      if key !in memoryBlocks || memoryBlocks[key] < now {
        return "";
      }
      nonce := Lookup(memoryEntitlements, key);
    }

    method DeleteIntegrityNonce(keyHash: string, now: int)
      modifies this
      ensures (Contents(), Done) == Perform(old(Contents()), Op.DeleteIntegrityNonce(keyHash), now)
    {
      var key := "integrity_nonce:" + keyHash;
      assert key == KeyOf(IntegrityNonce(keyHash));
      memoryEntitlements := memoryEntitlements - {key};
      memoryBlocks := memoryBlocks - {key};
    }
  }

  // ---- Independent cells --------------------------------------------------------------------

  datatype Data = Plain | Text(text: string) | Pair(messageID: string, userID: string)
  datatype Cell = Cell(expires: int, data: Data)

  function GateCell(c: Option<Cell>, cooldown: int, now: int): (Option<Cell>, Answer) {
    if c.Some? && now < c.value.expires then (c, Verdict(false)) else (Some(Cell(now + cooldown, Plain)), Verdict(true))
  }

  /** The simple form of one operation: it sees and replaces only the cell it is about. */
  function PerformCell(c: Option<Cell>, op: Op, now: int): (Option<Cell>, Answer) {
    var live := c.Some? && now <= c.value.expires;
    match op
    case BlockQueue(_) => (Some(Cell(now + NUKE_BLOCK_TTL, Plain)), Done)
    case UnblockQueue(_) => (None, Done)
    case IsQueueBlocked(_) => (c, Verdict(live))
    case AllowLargeUpload(_, cooldown) => GateCell(c, cooldown, now)
    case AllowFeed(_, cooldown) => GateCell(c, cooldown, now)
    case AllowReaction(_, _, cooldown) => GateCell(c, cooldown, now)
    case StoreFileToken(_, messageID, userID) => (Some(Cell(now + FILE_TOKEN_TTL, Pair(messageID, userID))), Done)
    case GetFileToken(_) =>
      (c, if live && c.value.data.Pair? then Ticket(c.value.data.messageID, c.value.data.userID) else Ticket("", ""))
    case StoreEntitlement(_, hash, ttl) => (Some(Cell(now + ttl, Text(hash))), Done)
    case GetEntitlementHash(_) => (c, Word(if live && c.value.data.Text? then c.value.data.text else ""))
    case StoreIntegrityNonce(_, nonce, ttl) => (Some(Cell(now + ttl, Text(nonce))), Done)
    case GetIntegrityNonce(_) => (c, Word(if live && c.value.data.Text? then c.value.data.text else ""))
    case DeleteIntegrityNonce(_) => (None, Done)
  }

  /** The shared maps, at one name, hold what its own cell holds. */
  predicate Holds(s: Store, n: Name, c: Option<Cell>) {
    var key := KeyOf(n);
    match c
    case None => key !in s.blocks
    case Some(cell) =>
      && key in s.blocks && s.blocks[key] == cell.expires
      && match n
         case FileToken(_) =>
           && cell.data.Pair? && ':' !in cell.data.userID
           && Lookup(s.tunnels, key) == JoinTicket(cell.data.messageID, cell.data.userID)
         case Entitlement(id) => cell.data.Text? && Lookup(s.entitlements, id) == cell.data.text
         case IntegrityNonce(_) => cell.data.Text? && Lookup(s.entitlements, key) == cell.data.text
         case _ => cell.data == Plain
  }

  predicate Admissible(op: Op) {
    WellFormed(Target(op)) && (op.StoreFileToken? ==> ':' !in op.userID)
  }

  /** At its own name, an operation on the shared maps does what the simple form does. */
  lemma OwnCell(s: Store, op: Op, now: int, c: Option<Cell>)
    requires Admissible(op) && Holds(s, Target(op), c)
    ensures Perform(s, op, now).1 == PerformCell(c, op, now).1
    ensures Holds(Perform(s, op, now).0, Target(op), PerformCell(c, op, now).0)
  {
    if op.GetFileToken? && c.Some? {
      TicketRoundTripExactly(c.value.data.messageID, c.value.data.userID);
    }
  }

  /** Entitlement hashes and integrity nonces also share a second map. */
  lemma SecondKeysDiffer(id: string, keyHash: string)
    requires !HasPrefix(id, "integrity_nonce:")
    ensures id != KeyOf(IntegrityNonce(keyHash))
  {
    KeyStartsWithTag(IntegrityNonce(keyHash));
    TagsWithColon();
  }

  /** At every other name nothing changes. */
  lemma OtherCell(s: Store, op: Op, now: int, n: Name, c: Option<Cell>)
    requires Admissible(op) && WellFormed(n) && n != Target(op) && Holds(s, n, c)
    ensures Holds(Perform(s, op, now).0, n, c)
  {
    if KeyOf(n) == KeyOf(Target(op)) {
      KeysAreInjective(n, Target(op));
    }
    if n.Entitlement? && Target(op).IntegrityNonce? {
      SecondKeysDiffer(n.id, op.keyHash);
    }
    if n.IntegrityNonce? && Target(op).Entitlement? {
      SecondKeysDiffer(op.id, n.keyHash);
    }
  }

  // ---- Whole runs ------------------------------------------------------------------------------

  datatype Call = Call(op: Op, now: int)

  /** The answers that calls about one name get while everything shares the maps. */
  function SharedAnswers(s: Store, calls: seq<Call>, n: Name): seq<Answer>
    decreases |calls|
  {
    if calls == [] then []
    else
      var r := Perform(s, calls[0].op, calls[0].now);
      (if Target(calls[0].op) == n then [r.1] else []) + SharedAnswers(r.0, calls[1..], n)
  }

  /** The answers they get from a cell of their own. */
  function OwnAnswers(c: Option<Cell>, calls: seq<Call>, n: Name): seq<Answer>
    decreases |calls|
  {
    if calls == [] then []
    else if Target(calls[0].op) != n then OwnAnswers(c, calls[1..], n)
    else
      var r := PerformCell(c, calls[0].op, calls[0].now);
      [r.1] + OwnAnswers(r.0, calls[1..], n)
  }

  lemma {:induction false} SharedRefinesOwn(s: Store, calls: seq<Call>, n: Name, c: Option<Cell>)
    requires WellFormed(n) && Holds(s, n, c) && forall i :: 0 <= i < |calls| ==> Admissible(calls[i].op)
    ensures SharedAnswers(s, calls, n) == OwnAnswers(c, calls, n)
    decreases |calls|
  {
    if calls != [] {
      var op, now := calls[0].op, calls[0].now;
      if Target(op) == n {
        OwnCell(s, op, now, c);
        SharedRefinesOwn(Perform(s, op, now).0, calls[1..], n, PerformCell(c, op, now).0);
      } else {
        OtherCell(s, op, now, n, c);
        SharedRefinesOwn(Perform(s, op, now).0, calls[1..], n, c);
      }
    }
  }

  /** Main result: over any run at any times, the shared maps answer every call about a name as
      a cell of that name's own would, so no call about another name or of another kind ever
      changes an answer, and a file token gives back exactly what was stored with it. */
  lemma SharedMapsRefineIndependentCells(calls: seq<Call>, n: Name)
    requires WellFormed(n) && forall i :: 0 <= i < |calls| ==> Admissible(calls[i].op)
    ensures SharedAnswers(Store(map[], map[], map[]), calls, n) == OwnAnswers(None, calls, n)
  {
    SharedRefinesOwn(Store(map[], map[], map[]), calls, n, None);
  }

  lemma SharedAnswersSkip(s: Store, call: Call, calls: seq<Call>, n: Name)
    requires Target(call.op) != n
    ensures SharedAnswers(s, [call] + calls, n) == SharedAnswers(Perform(s, call.op, call.now).0, calls, n)
    ensures OwnAnswers(None, [call] + calls, n) == OwnAnswers(None, calls, n)
  {
    assert ([call] + calls)[1..] == calls;
  }

  lemma SharedAnswersLast(s: Store, call: Call, n: Name)
    requires Target(call.op) == n
    ensures SharedAnswers(s, [call], n) == [Perform(s, call.op, call.now).1]
    ensures OwnAnswers(None, [call], n) == [PerformCell(None, call.op, call.now).1]
  {
    assert [call][1..] == [];
  }

  /** The condition is needed: an id that reads like a throttle key looks blocked while that
      throttle runs, though nobody blocked the queue. */
  lemma ReservedQueueIdLooksBlocked(id: string)
    ensures var calls, n := [Call(AllowLargeUpload(id, 1), 0), Call(IsQueueBlocked("largeup:" + id), 1)], Queue("largeup:" + id);
            SharedAnswers(Store(map[], map[], map[]), calls, n) == [Verdict(true)] &&
            OwnAnswers(None, calls, n) == [Verdict(false)]
  {
    var n := Queue("largeup:" + id);
    var upload, ask := Call(AllowLargeUpload(id, 1), 0), Call(IsQueueBlocked(n.id), 1);
    var s := Store(map[], map[], map[]);
    assert [upload, ask] == [upload] + [ask];
    assert n.id == KeyOf(LargeUpload(id));
    SharedAnswersSkip(s, upload, [ask], n);
    SharedAnswersLast(Perform(s, upload.op, 0).0, ask, n);
  }
}
