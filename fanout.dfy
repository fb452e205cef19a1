/**
 * The per-connection loops of src/server.ts: the heartbeat interval with its
 * `pong` handler, and the `forEach` that notifies an instance's clients.
 */
module Fanout {
  import opened Wrappers
  import opened Wss
  import opened Registry

  /** One sweep of the interval: a connection that did not answer is terminated, any other is marked and pinged. */
  function Beat(h: Heartbeat): (b: Heartbeat)
    ensures !h.isAlive ==> b.terminated && b.isAlive == h.isAlive && b.pings == h.pings
    ensures h.isAlive ==> !b.isAlive && b.terminated == h.terminated && b.pings == h.pings + 1
  {
    if !h.isAlive then h.(terminated := true)
    else h.(isAlive := false, pings := h.pings + 1)
  }

  /** The `pong` handler. */
  function Pong(h: Heartbeat): (p: Heartbeat)
    ensures p.isAlive && p.terminated == h.terminated && p.pings == h.pings
  {
    h.(isAlive := true)
  }

  /** Sweeps in a row, with `pongs[i]` telling whether a pong arrived before sweep `i`. */
  function Rounds(h: Heartbeat, pongs: seq<bool>): Heartbeat
    decreases |pongs|
  {
    if |pongs| == 0 then h
    else Rounds(Beat(if pongs[0] then Pong(h) else h), pongs[1..])
  }

  /**
   * The heartbeat terminates a connection exactly when some sweep finds it
   * still unanswered: the first sweep when it was already marked and no pong
   * came, any later sweep not preceded by a pong.
   */
  lemma {:induction false} RoundsTerminate(h: Heartbeat, pongs: seq<bool>)
    ensures Rounds(h, pongs).terminated <==>
              || h.terminated
              || (|pongs| > 0 && !pongs[0] && !h.isAlive)
              || (exists i :: 1 <= i < |pongs| && !pongs[i])
    decreases |pongs|
  {
    if |pongs| > 0 {
      var next := Beat(if pongs[0] then Pong(h) else h);
      assert !next.isAlive;
      assert next.terminated <==> h.terminated || (!pongs[0] && !h.isAlive);
      RoundsTerminate(next, pongs[1..]);
      var rest := pongs[1..];
      if exists j :: 1 <= j < |rest| && !rest[j] {
        var j :| 1 <= j < |rest| && !rest[j];
        assert !pongs[j + 1];
      }
      if exists i :: 1 <= i < |pongs| && !pongs[i] {
        var i :| 1 <= i < |pongs| && !pongs[i];
        if i > 1 {
          assert !rest[i - 1];
        }
      }
    }
  }

  /** A fresh connection that answers every ping is never terminated. */
  lemma AnsweredNeverTerminated(n: nat)
    ensures !Rounds(Heartbeat(true, false, 0), seq(n, i => true)).terminated
  {
    var pongs := seq(n, i => true);
    RoundsTerminate(Heartbeat(true, false, 0), pongs);
    assert forall i :: 1 <= i < |pongs| ==> pongs[i];
  }

  /** One sweep's effect on a connection: its heartbeat takes one `Beat`, nothing else about it changes. */
  twostate predicate Swept(c: Connection)
    reads c
  {
    c.Heart() == Beat(old(c.Heart())) && c.SameIdentity() && c.snapsInstanceKey == old(c.snapsInstanceKey)
  }

  /** The body of the interval for one connection: `terminate()` when unanswered, else mark and `ping()`. */
  method Tick(ws: Connection)
    modifies ws
    ensures Swept(ws)
  {
    if !ws.isAlive {
      ws.terminated := true;
    } else {
      ws.isAlive := false;
      ws.pings := ws.pings + 1;
    }
  }

  /** The interval sweep over every open connection. */
  method Sweep(clients: set<Connection>)
    modifies clients
    ensures forall c :: c in clients ==> Swept(c)
  {
    var todo := clients;
    while todo != {}
      invariant todo <= clients
      invariant forall c :: c in clients && c !in todo ==> Swept(c)
      invariant forall c :: c in todo ==> unchanged(c)
      decreases |todo|
    {
      var ws :| ws in todo;
      Tick(ws);
      todo := todo - {ws};
    }
  }

  /** The `pong` handler of one connection. */
  method OnPong(ws: Connection)
    modifies ws
    ensures ws.Heart() == Pong(old(ws.Heart())) && ws.SameIdentity() && ws.snapsInstanceKey == old(ws.snapsInstanceKey)
  {
    ws.isAlive := true;
  }

  /** What notifying a client does to it: its key is cleared when `clearKey` is set, nothing else changes. */
  twostate predicate Notified(c: Connection, clearKey: bool)
    reads c
  {
    c.SameIdentity() && c.Heart() == old(c.Heart())
    && c.snapsInstanceKey == (if clearKey then None else old(c.snapsInstanceKey))
  }

  twostate predicate KeptOrCleared(c: Connection, clearKey: bool)
    reads c
  {
    c.SameIdentity() && c.Heart() == old(c.Heart())
    && (c.snapsInstanceKey == old(c.snapsInstanceKey) || (clearKey && c.snapsInstanceKey == None))
  }

  /** `clientWs.snapsInstanceKey = undefined`, where the arm does it. */
  method Release(c: Connection, clearKey: bool)
    modifies c
    ensures Notified(c, clearKey)
  {
    if clearKey {
      c.snapsInstanceKey := None;
    }
  }

  /**
   * The `forEach` over an instance's clients: each entry gets `m` (the sends
   * are returned), and when `clearKey` is set the client's
   * `snapsInstanceKey` is cleared first, so it can enter another instance.
   * The registry `registry` is left as it is.
   */
  method Broadcast(clients: map<nat, Connection>, m: Envelope, clearKey: bool, ghost registry: ClassSnapsInstances)
    returns (sent: seq<(Connection, Envelope)>)
    modifies clients.Values
    ensures registry.instances == old(registry.instances) && registry.Clients() == old(registry.Clients())
    ensures |sent| == |clients|
    ensures forall i :: 0 <= i < |sent| ==> sent[i].1 == m && sent[i].0 in clients.Values
    ensures forall id :: id in clients ==> (clients[id], m) in sent
    ensures forall c :: c in clients.Values ==> Notified(c, clearKey)
  {
    sent := [];
    var todo := clients.Keys;
    while todo != {}
      invariant todo <= clients.Keys
      invariant |sent| + |todo| == |clients|
      invariant forall i :: 0 <= i < |sent| ==> sent[i].1 == m && sent[i].0 in clients.Values
      invariant forall id :: id in clients && id !in todo ==> (clients[id], m) in sent
      invariant clearKey ==> forall id :: id in clients && id !in todo ==> clients[id].snapsInstanceKey == None
      invariant forall c :: c in clients.Values ==> KeptOrCleared(c, clearKey)
      decreases |todo|
    {
      var id :| id in todo;
      var client := clients[id];
      Release(client, clearKey);
      sent := sent + [(client, m)];
      todo := todo - {id};
    }
    forall c | c in clients.Values
      ensures Notified(c, clearKey)
    {
      var id :| id in clients && clients[id] == c;
    }
  }
}
