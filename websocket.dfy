/** The WebSocket client registry: a set of client handles with add,
    remove, size and cleanup, and a broadcast that prunes every client it
    cannot send to. */
module WebSocket {
  import opened Types

  /** A client handle. `hasSend` and `hasClose` say whether the value has a
      `send` and a `close` function; a null or undefined handle has neither. */
  datatype Client = Client(id: nat, hasSend: bool, hasClose: bool)

  /** The clients of `cs` that stay registered after a broadcast: those with
      a `send` function whose call did not throw. */
  function Survivors(cs: set<Client>, sendThrows: Client -> bool): set<Client>
  {
    set c | c in cs && c.hasSend && !sendThrows(c)
  }

  /** Broadcasting never adds a client, and prunes exactly the clients it
      cannot send to. */
  lemma SurvivorsSpec(cs: set<Client>, sendThrows: Client -> bool)
    ensures Survivors(cs, sendThrows) <= cs
    ensures forall c :: c in Survivors(cs, sendThrows) <==> c in cs && c.hasSend && !sendThrows(c)
    ensures |Survivors(cs, sendThrows)| <= |cs|
  {
    var kept := Survivors(cs, sendThrows);
    assert kept <= cs;
    SubsetCard(kept, cs);
  }

  lemma {:induction false} SubsetCard(a: set<Client>, b: set<Client>)
    requires a <= b
    ensures |a| <= |b|
    decreases |b|
  {
    if b != {} {
      var x :| x in b;
      SubsetCard(a - {x}, b - {x});
    }
  }

  /** The clients of `cs` whose `close` was called and returned normally. */
  function ClosedCleanly(cs: set<Client>, closeThrows: Client -> bool): set<Client>
  {
    set c | c in cs && c.hasClose && !closeThrows(c)
  }

  /** Survivors of a set with one more client: that client survives or not
      on its own. */
  lemma SurvivorsAdd(done: set<Client>, c: Client, sendThrows: Client -> bool)
    requires c !in done
    ensures Survivors(done + {c}, sendThrows) ==
      Survivors(done, sendThrows) + (if c.hasSend && !sendThrows(c) then {c} else {})
  {
  }

  /** The loop state of a broadcast: `pending` clients not yet tried,
      `done` tried, the registry holding the pending clients and the
      survivors so far, and the counters in step with `done`. */
  ghost predicate BroadcastInv(start: set<Client>, pending: set<Client>, done: set<Client>,
                               clients: set<Client>, sendThrows: Client -> bool,
                               successCount: nat, failCount: nat)
  {
    && pending !! done && pending + done == start
    && clients == pending + Survivors(done, sendThrows)
    && successCount == |Survivors(done, sendThrows)|
    && successCount + failCount == |done|
  }

  /** Trying one pending client keeps the loop state. */
  lemma BroadcastStep(start: set<Client>, pending: set<Client>, done: set<Client>, c: Client,
                      clients: set<Client>, sendThrows: Client -> bool,
                      successCount: nat, failCount: nat)
    requires c in pending
    requires BroadcastInv(start, pending, done, clients, sendThrows, successCount, failCount)
    ensures var ok := c.hasSend && !sendThrows(c);
      BroadcastInv(start, pending - {c}, done + {c}, if ok then clients else clients - {c}, sendThrows,
                   if ok then successCount + 1 else successCount,
                   if ok then failCount else failCount + 1)
  {
    SurvivorsAdd(done, c, sendThrows);
    assert (pending - {c}) + (done + {c}) == start;
    if c.hasSend && !sendThrows(c) {
      SendKept(pending, done, c, clients, Survivors(done, sendThrows));
    } else {
      SendDropped(pending, done, c, clients, Survivors(done, sendThrows));
    }
  }

  lemma SendKept(pending: set<Client>, done: set<Client>, c: Client, clients: set<Client>, kept: set<Client>)
    requires c in pending && pending !! done && kept <= done
    requires clients == pending + kept
    ensures clients == (pending - {c}) + (kept + {c})
    ensures |kept + {c}| == |kept| + 1 && |done + {c}| == |done| + 1
  {
  }

  lemma SendDropped(pending: set<Client>, done: set<Client>, c: Client, clients: set<Client>, kept: set<Client>)
    requires c in pending && pending !! done && kept <= done
    requires clients == pending + kept
    ensures clients - {c} == (pending - {c}) + kept
    ensures |done + {c}| == |done| + 1
  {
  }

  lemma BroadcastDone(start: set<Client>, done: set<Client>, clients: set<Client>,
                      sendThrows: Client -> bool, successCount: nat, failCount: nat)
    requires BroadcastInv(start, {}, done, clients, sendThrows, successCount, failCount)
    ensures clients == Survivors(start, sendThrows) && clients <= start
    ensures successCount == |clients| && successCount + failCount == |start|
  {
    assert done == start;
    SurvivorsSpec(start, sendThrows);
  }

  class WebSocketService {
    var clients: set<Client>

    constructor ()
      ensures clients == {}
    {
      clients := {};
    }

    /** `addClient`: registering a client already present changes nothing. */
    method AddClient(ws: Client)
      modifies this
      ensures clients == old(clients) + {ws}
      ensures |clients| == if ws in old(clients) then |old(clients)| else |old(clients)| + 1
    {
      clients := clients + {ws};
    }

    method RemoveClient(ws: Client)
      modifies this
      ensures clients == old(clients) - {ws}
      ensures ws !in clients
    {
      clients := clients - {ws};
    }

    /** `broadcast`: every registered client is tried once. A client without
        a `send` function, or whose `send` throws, counts as a failure and
        is removed; the others count as successes and stay. The message
        itself does not affect which clients stay. */
    method Broadcast(message: ChatMessage, sendThrows: Client -> bool)
      returns (successCount: nat, failCount: nat)
      modifies this
      ensures clients == Survivors(old(clients), sendThrows)
      ensures clients <= old(clients)
      ensures successCount == |clients|
      ensures successCount + failCount == |old(clients)|
    {
      successCount, failCount := 0, 0;
      var pending := clients;
      ghost var done: set<Client> := {};
      while pending != {}
        invariant BroadcastInv(old(clients), pending, done, clients, sendThrows, successCount, failCount)
        decreases |pending|
      {
        var client :| client in pending;
        BroadcastStep(old(clients), pending, done, client, clients, sendThrows, successCount, failCount);
        if client.hasSend && !sendThrows(client) {
          successCount := successCount + 1;
        } else {
          failCount := failCount + 1;
          clients := clients - {client};
        }
        pending := pending - {client};
        done := done + {client};
      }
      BroadcastDone(old(clients), done, clients, sendThrows, successCount, failCount);
    }

    method GetClientCount() returns (n: nat)
      ensures n == |clients|
    {
      n := |clients|;
    }

    /** `cleanup`: `close` is called on every client that has one, errors
        are swallowed, and the registry ends empty. Returns the clients
        whose `close` returned normally. */
    method Cleanup(closeThrows: Client -> bool) returns (closed: set<Client>)
      modifies this
      ensures closed == ClosedCleanly(old(clients), closeThrows)
      ensures clients == {}
    {
      closed := {};
      var pending := clients;
      while pending != {}
        invariant pending <= old(clients)
        invariant closed == ClosedCleanly(old(clients) - pending, closeThrows)
        decreases |pending|
      {
        var client :| client in pending;
        if client.hasClose && !closeThrows(client) {
          closed := closed + {client};
        }
        pending := pending - {client};
      }
      clients := {};
    }
  }
}
