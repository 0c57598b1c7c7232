/** The connection registry (websocket.go): Run takes register and unregister events one
    at a time; an unregister only retires the connection actually in the map. */
module Hub {

  /** A connected client. `open` is its send channel; closing a closed channel would panic. */
  class Client {
    const id: string
    var open: bool

    constructor (id: string)
      ensures this.id == id && open
    {
      this.id := id;
      open := true;
    }

    method CloseSend()
      requires open
      modifies this
      ensures !open
    {
      open := false;
    }
  }

  datatype Event = Register(c: Client) | Unregister(c: Client)

  /** The map and the channels closed so far, after the first n events. */
  function Clients(es: seq<Event>, n: nat): map<string, Client>
    requires n <= |es|
  {
    if n == 0 then map[]
    else
      var m := Clients(es, n - 1);
      match es[n - 1]
      case Register(c) => m[c.id := c]
      case Unregister(c) => if c.id in m && m[c.id] == c then m - {c.id} else m
  }

  function Closed(es: seq<Event>, n: nat): seq<Client>
    requires n <= |es|
  {
    if n == 0 then []
    else
      var m := Clients(es, n - 1);
      match es[n - 1]
      case Register(c) => Closed(es, n - 1)
      case Unregister(c) =>
        if c.id in m && m[c.id] == c then Closed(es, n - 1) + [c] else Closed(es, n - 1)
  }

  // ---- What the history says --------------------------------------------------

  /** Event i registered c, and since then neither c was unregistered nor its id taken over. */
  predicate Holds(es: seq<Event>, n: nat, c: Client, i: nat)
    requires n <= |es|
  {
    i < n && es[i] == Register(c) &&
    forall j :: i < j < n ==> es[j] != Unregister(c) && !(es[j].Register? && es[j].c.id == c.id)
  }

  predicate IsCurrent(es: seq<Event>, n: nat, c: Client)
    requires n <= |es|
  {
    exists i :: 0 <= i < n && Holds(es, n, c, i)
  }

  lemma CurrentStep(es: seq<Event>, n: nat, c: Client)
    requires 0 < n <= |es|
    ensures IsCurrent(es, n, c) <==>
            es[n - 1] == Register(c) ||
            (IsCurrent(es, n - 1, c) && es[n - 1] != Unregister(c) && !(es[n - 1].Register? && es[n - 1].c.id == c.id))
  {
    if es[n - 1] == Register(c) {
      assert Holds(es, n, c, n - 1);
    }
    if i :| 0 <= i < n && Holds(es, n, c, i) {
      assert i == n - 1 || Holds(es, n - 1, c, i);
    }
    var m := n - 1;
    if i :| 0 <= i < m && Holds(es, m, c, i) {
      assert es[n - 1] != Unregister(c) && !(es[n - 1].Register? && es[n - 1].c.id == c.id) ==> Holds(es, n, c, i);
    }
  }

  /** Main result on lookup: an id resolves to a connection exactly when that connection was
      the last one registered under the id and has not been unregistered since. */
  lemma {:induction false} LookupIsTheLastRegistered(es: seq<Event>, n: nat, id: string, c: Client)
    requires n <= |es|
    ensures (id in Clients(es, n) && Clients(es, n)[id] == c) <==> (c.id == id && IsCurrent(es, n, c))
  {
    if n > 0 {
      LookupIsTheLastRegistered(es, n - 1, id, c);
      CurrentStep(es, n, c);
      if es[n - 1].c.id == id {
        LookupIsTheLastRegistered(es, n - 1, id, es[n - 1].c);
      }
    }
  }

  /** Event i retired c: it was unregistered while it still was the current connection. */
  predicate RetiredAt(es: seq<Event>, c: Client, i: nat) {
    i < |es| && es[i] == Unregister(c) && IsCurrent(es, i, c)
  }

  /** A channel is closed exactly when its connection was unregistered while current, so
      a connection whose id was taken over before is never closed. */
  lemma {:induction false} ClosedExactlyWhenRetired(es: seq<Event>, n: nat, c: Client)
    requires n <= |es|
    ensures c in Closed(es, n) <==> exists i :: 0 <= i < n && RetiredAt(es, c, i)
  {
    if n > 0 {
      ClosedExactlyWhenRetired(es, n - 1, c);
      LookupIsTheLastRegistered(es, n - 1, c.id, c);
      if es[n - 1] == Unregister(c) && IsCurrent(es, n - 1, c) {
        assert RetiredAt(es, c, n - 1);
      }
      if i :| 0 <= i < n && RetiredAt(es, c, i) {
        assert i == n - 1 || (i < n - 1 && RetiredAt(es, c, i));
      }
    }
  }

  /** Every ServeWS call builds its own client and registers it once. */
  predicate RegisteredOnce(es: seq<Event>) {
    forall i, j :: 0 <= i < j < |es| && es[i].Register? && es[j].Register? ==> es[i].c != es[j].c
  }

  lemma RetiredIsNeverCurrentAgain(es: seq<Event>, n: nat, c: Client, i: nat)
    requires RegisteredOnce(es) && i < n <= |es| && RetiredAt(es, c, i)
    ensures !IsCurrent(es, n, c)
  {
    var k :| 0 <= k < i && Holds(es, i, c, k);
    forall m | 0 <= m < n ensures !Holds(es, n, c, m) {
      assert m < k ==> es[m] != Register(c);
      assert m > k ==> es[m] != Register(c);
      assert m == k ==> es[i] == Unregister(c) && m < i < n;
    }
  }

  lemma CurrentIsOpen(es: seq<Event>, n: nat, id: string)
    requires RegisteredOnce(es) && n <= |es| && id in Clients(es, n)
    ensures Clients(es, n)[id].id == id && Clients(es, n)[id] !in Closed(es, n)
  {
    var c := Clients(es, n)[id];
    LookupIsTheLastRegistered(es, n, id, c);
    ClosedExactlyWhenRetired(es, n, c);
    if i :| 0 <= i < n && RetiredAt(es, c, i) {
      RetiredIsNeverCurrentAgain(es, n, c, i);
    }
  }

  /** Main result on channels: however often a connection is unregistered, a connection in
      the map is open and no channel is closed twice. */
  lemma {:induction false} ChannelsCloseAtMostOnce(es: seq<Event>, n: nat)
    requires RegisteredOnce(es) && n <= |es|
    ensures forall id :: id in Clients(es, n) ==> Clients(es, n)[id].id == id && Clients(es, n)[id] !in Closed(es, n)
    ensures forall i, j :: 0 <= i < j < |Closed(es, n)| ==> Closed(es, n)[i] != Closed(es, n)[j]
  {
    forall id | id in Clients(es, n)
      ensures Clients(es, n)[id].id == id && Clients(es, n)[id] !in Closed(es, n)
    {
      CurrentIsOpen(es, n, id);
    }
    if n > 0 {
      ChannelsCloseAtMostOnce(es, n - 1);
    }
  }

  /** Registering one connection twice would break it: its closed channel is closed again. */
  lemma ReRegistrationClosesTwice(c: Client)
    ensures var es := [Register(c), Unregister(c), Register(c), Unregister(c)];
            Closed(es, 4) == [c, c]
  {
    var es := [Register(c), Unregister(c), Register(c), Unregister(c)];
    assert Clients(es, 1) == map[c.id := c];
    assert Clients(es, 2) == map[];
    assert Clients(es, 3) == map[c.id := c];
    assert Closed(es, 1) == [] && Closed(es, 2) == [c] && Closed(es, 3) == [c];
  }

  // ---- The loop itself ----------------------------------------------------------

  class Registry {
    var clients: map<string, Client>

    constructor ()
      ensures clients == map[]
    {
      clients := map[];
    }

    method GetClient(id: string) returns (c: Client?)
      ensures c == if id in clients then clients[id] else null
    {
      c := if id in clients then clients[id] else null;
    }

    /** Handles the events in order. CloseSend demands an open channel, so this body also
        shows that the run never panics on a second close. */
    method Run(es: seq<Event>)
      requires RegisteredOnce(es) && clients == map[]
      requires forall i :: 0 <= i < |es| ==> es[i].c.open
      modifies this, set i | 0 <= i < |es| :: es[i].c
      ensures clients == Clients(es, |es|)
      ensures forall i :: 0 <= i < |es| ==> (es[i].c.open <==> es[i].c !in Closed(es, |es|))
    {
      for n := 0 to |es|
        invariant clients == Clients(es, n)
        invariant forall i :: 0 <= i < |es| ==> (es[i].c.open <==> es[i].c !in Closed(es, n))
      {
        var client := es[n].c;
        match es[n]
        case Register(_) =>
          clients := clients[client.id := client];
        case Unregister(_) =>
          if client.id in clients && clients[client.id] == client {
            CurrentIsOpen(es, n, client.id);
            clients := clients - {client.id};
            client.CloseSend();
          }
      }
    }
  }
}
