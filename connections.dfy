/** The live connection registry `ConnectionManager`: a list of
    (websocket, user id) entries, appended on connect, walked in order to push
    a message to one user, and pruned by the websocket handler on disconnect. */
module Connections {

  /** The identity of one accepted websocket. Entries are compared by value,
      and a websocket object compares equal only to itself. */
  type Handle = nat

  /** One entry `{"ws": websocket, "user_id": user_id}`. */
  datatype Connection = Connection(ws: Handle, userId: int)

  /** One `send_text` call: the text pushed to one websocket. */
  datatype Delivery = Delivery(ws: Handle, text: string)

  /** The sends that pushing `message` to `userId` makes, in list order: one
      per entry whose user id matches. */
  function Deliveries(conns: seq<Connection>, message: string, userId: int): (sends: seq<Delivery>)
    ensures |sends| <= |conns|
    ensures forall k :: 0 <= k < |sends| ==> sends[k].text == message && Connection(sends[k].ws, userId) in conns
    decreases |conns|
  {
    if conns == [] then []
    else
      var last := conns[|conns| - 1];
      Deliveries(conns[..|conns| - 1], message, userId)
        + (if last.userId == userId then [Delivery(last.ws, message)] else [])
  }

  /** Pushing to a concatenation is pushing to each part in turn. */
  lemma {:induction false} DeliveriesConcat(a: seq<Connection>, b: seq<Connection>, message: string, userId: int)
    ensures Deliveries(a + b, message, userId) == Deliveries(a, message, userId) + Deliveries(b, message, userId)
    decreases |b|
  {
    if b != [] {
      var init := b[..|b| - 1];
      assert (a + b)[..|a + b| - 1] == a + init;
      DeliveriesConcat(a, init, message, userId);
    } else {
      assert a + b == a;
    }
  }

  /** Every websocket gets exactly as many copies of the message as it has
      entries for `userId`: one per matching entry, none for other users. */
  lemma {:induction false} DeliveriesCount(conns: seq<Connection>, message: string, userId: int, ws: Handle)
    ensures multiset(Deliveries(conns, message, userId))[Delivery(ws, message)]
         == multiset(conns)[Connection(ws, userId)]
    decreases |conns|
  {
    if conns != [] {
      var init := conns[..|conns| - 1];
      assert conns == init + [conns[|conns| - 1]];
      DeliveriesCount(init, message, userId, ws);
    }
  }

  /** With no entry for `userId`, pushing to that user sends nothing. */
  lemma {:induction false} DeliveriesNoMatch(conns: seq<Connection>, message: string, userId: int)
    requires forall k :: 0 <= k < |conns| ==> conns[k].userId != userId
    ensures Deliveries(conns, message, userId) == []
    decreases |conns|
  {
    if conns != [] {
      DeliveriesNoMatch(conns[..|conns| - 1], message, userId);
    }
  }

  /** How far `send_personal_message` gets: the position of the first entry
      for `userId` whose websocket raises on send, or the whole list when no
      such entry exists. */
  function Reached(conns: seq<Connection>, userId: int, broken: set<Handle>): (stop: nat)
    ensures stop <= |conns|
    ensures forall k :: 0 <= k < stop ==> !(conns[k].userId == userId && conns[k].ws in broken)
    ensures stop < |conns| ==> conns[stop].userId == userId && conns[stop].ws in broken
    decreases |conns|
  {
    if conns == [] then 0
    else if conns[0].userId == userId && conns[0].ws in broken then 0
    else 1 + Reached(conns[1..], userId, broken)
  }

  /** When every send to the user's websockets returns, the walk reaches the
      end and each matching entry is sent to. */
  lemma ReachedAllWhenNoneRaise(conns: seq<Connection>, userId: int, broken: set<Handle>)
    requires forall k :: 0 <= k < |conns| && conns[k].userId == userId ==> conns[k].ws !in broken
    ensures Reached(conns, userId, broken) == |conns|
    ensures conns[..Reached(conns, userId, broken)] == conns
  {
  }

  /** Two registrations for the same user both receive a push to that user. */
  lemma BothRegistrationsReceive(conns: seq<Connection>, message: string, userId: int, ws1: Handle, ws2: Handle)
    requires Connection(ws1, userId) in conns && Connection(ws2, userId) in conns
    ensures Delivery(ws1, message) in Deliveries(conns, message, userId)
    ensures Delivery(ws2, message) in Deliveries(conns, message, userId)
  {
    DeliveriesCount(conns, message, userId, ws1);
    DeliveriesCount(conns, message, userId, ws2);
  }

  /** The position of the first entry equal to `c`. */
  function FirstIndex(conns: seq<Connection>, c: Connection): (i: nat)
    requires c in conns
    ensures i < |conns| && conns[i] == c
    ensures forall k :: 0 <= k < i ==> conns[k] != c
    decreases |conns|
  {
    if conns[0] == c then 0 else 1 + FirstIndex(conns[1..], c)
  }

  /** `list.remove`: drop the first entry equal to `c`. Exactly one copy of
      `c` goes, the list shrinks by one, and the entries before and after the
      removed one keep their relative order. */
  function RemoveFirst(conns: seq<Connection>, c: Connection): (rest: seq<Connection>)
    requires c in conns
    ensures |rest| == |conns| - 1
    ensures multiset(rest) == multiset(conns) - multiset{c}
    ensures rest[..FirstIndex(conns, c)] == conns[..FirstIndex(conns, c)]
    ensures rest[FirstIndex(conns, c)..] == conns[FirstIndex(conns, c) + 1..]
  {
    var i := FirstIndex(conns, c);
    var before, after := conns[..i], conns[i + 1..];
    assert conns == before + [c] + after;
    assert multiset(conns) == multiset(before) + multiset{c} + multiset(after);
    assert (before + after)[..i] == before;
    assert (before + after)[i..] == after;
    before + after
  }

  /** After one registration of a user disconnects, a push to that user still
      reaches every other registration, each as often as before. */
  lemma PushAfterDisconnect(conns: seq<Connection>, c: Connection, message: string, ws: Handle)
    requires c in conns
    ensures multiset(Deliveries(RemoveFirst(conns, c), message, c.userId))[Delivery(ws, message)]
         == multiset(conns)[Connection(ws, c.userId)] - (if c.ws == ws then 1 else 0)
  {
    DeliveriesCount(RemoveFirst(conns, c), message, c.userId, ws);
  }

  /** After a disconnect, the remaining sends keep their old order: those to
      entries before the removed one, then those to entries after it. */
  lemma PushAfterDisconnectOrder(conns: seq<Connection>, c: Connection, message: string, userId: int)
    requires c in conns
    ensures Deliveries(RemoveFirst(conns, c), message, userId)
         == Deliveries(conns[..FirstIndex(conns, c)], message, userId)
          + Deliveries(conns[FirstIndex(conns, c) + 1..], message, userId)
  {
    var i := FirstIndex(conns, c);
    DeliveriesConcat(conns[..i], conns[i + 1..], message, userId);
  }

  /** A second disconnect for an entry registered once finds nothing to
      remove, so removal is not idempotent: `list.remove` would raise. */
  lemma RemoveNotIdempotent(conns: seq<Connection>, c: Connection)
    requires multiset(conns)[c] == 1
    ensures c !in RemoveFirst(conns, c)
  {
    assert multiset(RemoveFirst(conns, c))[c] == 0;
  }

  class ConnectionManager {
    var activeConnections: seq<Connection>
    /** Every `send_text` call made so far, oldest first. */
    var sentLog: seq<Delivery>

    constructor ()
      ensures activeConnections == [] && sentLog == []
    {
      activeConnections := [];
      sentLog := [];
    }

    /** `connect`: the accepted websocket is appended as one new entry. */
    method Connect(ws: Handle, userId: int)
      modifies this
      ensures activeConnections == old(activeConnections) + [Connection(ws, userId)]
      ensures sentLog == old(sentLog)
    {
      activeConnections := activeConnections + [Connection(ws, userId)];
    }

    /** `send_personal_message`: walk the entries in order and send the
      message to each one whose user id matches; the entries are not touched.
      `broken` holds the websockets whose `send_text` raises: the first
      matching entry on one of them ends the walk, and the exception leaves
      the method, so later matching entries get nothing. */
    method SendPersonalMessage(message: string, userId: int, broken: set<Handle>) returns (raised: bool)
      modifies this
      ensures activeConnections == old(activeConnections)
      ensures raised <==> Reached(activeConnections, userId, broken) < |activeConnections|
      ensures sentLog == old(sentLog)
                       + Deliveries(activeConnections[..Reached(activeConnections, userId, broken)], message, userId)
    {
      raised := false;
      var i := 0;
      while i < |activeConnections| && !raised
        invariant 0 <= i <= Reached(activeConnections, userId, broken)
        invariant raised ==> i == Reached(activeConnections, userId, broken) < |activeConnections|
        invariant !raised ==> i <= |activeConnections|
        invariant activeConnections == old(activeConnections)
        invariant sentLog == old(sentLog) + Deliveries(activeConnections[..i], message, userId)
        decreases |activeConnections| - i, !raised
      {
        var connection := activeConnections[i];
        if connection.userId == userId {
          if connection.ws in broken {
            raised := true;
          } else {
            assert activeConnections[..i + 1][..i] == activeConnections[..i];
            sentLog := sentLog + [Delivery(connection.ws, message)];
            i := i + 1;
          }
        } else {
          assert activeConnections[..i + 1][..i] == activeConnections[..i];
          i := i + 1;
        }
      }
    }
  }

  /** The `WebSocketDisconnect` branch of the websocket handler: remove the
      first entry equal to (ws, userId). When there is none, `list.remove`
      raises and the list is left as it was. */
  method HandleDisconnect(manager: ConnectionManager, ws: Handle, userId: int) returns (raised: bool)
    modifies manager
    ensures raised <==> Connection(ws, userId) !in old(manager.activeConnections)
    ensures !raised ==> manager.activeConnections == RemoveFirst(old(manager.activeConnections), Connection(ws, userId))
    ensures raised ==> manager.activeConnections == old(manager.activeConnections)
    ensures manager.sentLog == old(manager.sentLog)
  {
    var entry := Connection(ws, userId);
    if entry in manager.activeConnections {
      manager.activeConnections := RemoveFirst(manager.activeConnections, entry);
      raised := false;
    } else {
      raised := true;
    }
  }
}
