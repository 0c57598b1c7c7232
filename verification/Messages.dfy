/** The Postgres `messages` table (db.go): one row per pending message, either with
    the envelope inline or pointing at a shared bucket object. */
module Messages {
  import opened Text

  datatype Message = Message(
    recipient: string,
    sender: string,
    envelope: Option<string>,
    bucketUrl: Option<string>,
    expires: int)

  /** Row ids grow with insertion, standing for fresh UUIDs in created_at order. */
  type Table = map<nat, Message>

  predicate Unexpired(m: Message, now: int) {
    now < m.expires
  }

  predicate InlineFor(m: Message, recipient: string) {
    m.recipient == recipient && m.envelope.Some?
  }

  function Pending(rows: Table, recipient: string, now: int): set<nat> {
    set id | id in rows && rows[id].recipient == recipient && Unexpired(rows[id], now)
  }

  function WithoutInline(rows: Table, recipient: string): Table {
    map id | id in rows && !InlineFor(rows[id], recipient) :: rows[id]
  }

  function WithoutExpired(rows: Table, now: int): Table {
    map id | id in rows && Unexpired(rows[id], now) :: rows[id]
  }

  function Without(rows: Table, id: nat): Table {
    map i | i in rows && i != id :: rows[i]
  }

  predicate Refs(rows: Table, url: string) {
    exists id :: id in rows && rows[id].bucketUrl == Some(url)
  }

  function CountByBucket(rows: Table, url: string): nat {
    |set id | id in rows && rows[id].bucketUrl == Some(url)|
  }

  /** The URLs SELECT DISTINCT reports for the rows already expired at `at`. */
  function ExpiredUrls(rows: Table, at: int): set<string> {
    set id | id in rows && !Unexpired(rows[id], at) && rows[id].bucketUrl.Some? :: rows[id].bucketUrl.value
  }

  lemma CountIsReferenceTest(rows: Table, url: string)
    ensures CountByBucket(rows, url) == 0 <==> !Refs(rows, url)
  {
    var refs := set id | id in rows && rows[id].bucketUrl == Some(url);
    if id :| id in rows && rows[id].bucketUrl == Some(url) {
      assert id in refs;
    }
  }

  class MessageTable {
    var rows: Table
    var next: nat

    ghost predicate Valid()
      reads this
    {
      forall id :: id in rows ==> id < next
    }

    constructor ()
      ensures Valid() && rows == map[] && next == 0
    {
      rows := map[];
      next := 0;
    }

    method StoreMessageSized(recipient: string, sender: string, envelope: Option<string>,
                             bucketUrl: Option<string>, ttl: int, now: int)
      returns (id: nat)
      requires Valid()
      modifies this
      ensures Valid() && id == old(next) && next == id + 1 && id !in old(rows)
      ensures rows == old(rows)[id := Message(recipient, sender, envelope, bucketUrl, now + ttl)]
    {
      id := next;
      rows := rows[id := Message(recipient, sender, envelope, bucketUrl, now + ttl)];
      next := next + 1;
    }

    method DeleteMessage(id: nat)
      requires Valid()
      modifies this
      ensures Valid() && next == old(next) && rows == Without(old(rows), id)
    {
      rows := map i | i in rows && i != id :: rows[i];
    }

    method DeleteInlineMessages(recipient: string)
      requires Valid()
      modifies this
      ensures Valid() && next == old(next) && rows == WithoutInline(old(rows), recipient)
    {
      rows := map i | i in rows && !(rows[i].recipient == recipient && rows[i].envelope.Some?) :: rows[i];
    }

    /** The sweep run without interference: it removes the expired rows and reports
        exactly the URLs that lost a row and now have none. */
    method PruneExpiredMessages(now: int) returns (urls: set<string>)
      requires Valid()
      modifies this
      ensures Valid() && rows == WithoutExpired(old(rows), now)
      ensures forall u :: u in urls <==> Refs(old(rows), u) && !Refs(rows, u)
    {
      ghost var before := rows;
      var candidates := ExpiredUrls(rows, now);
      rows := WithoutExpired(rows, now);
      urls := {};
      var todo := candidates;
      while todo != {}
        invariant rows == WithoutExpired(before, now) && Valid()
        invariant todo <= candidates
        invariant forall u :: u in urls <==> u in candidates - todo && !Refs(rows, u)
        decreases todo
      {
        var url :| url in todo;
        todo := todo - {url};
        CountIsReferenceTest(rows, url);
        if CountByBucket(rows, url) == 0 {
          urls := urls + {url};
        }
      }
      forall u ensures u in candidates && !Refs(rows, u) <==> Refs(before, u) && !Refs(rows, u) {
        if id :| id in before && before[id].bucketUrl == Some(u) {
          if Unexpired(before[id], now) {
            assert rows[id].bucketUrl == Some(u);
          }
        }
      }
    }
  }
}
