/** The WebSocket side every receiver shares: the messages it pushes, the
    connected clients with their `readyState`, and the
    `wss.clients.forEach(c => { if (c.readyState === WebSocket.OPEN) c.send(message) })`
    fan-out. A client is modelled by its state and the messages sent to it so far;
    JSON serialisation is not modelled. */
module Broadcast {

  /** `WebSocket.CONNECTING`, `OPEN`, `CLOSING`, `CLOSED`. */
  datatype ReadyState = Connecting | Open | Closing | Closed

  /** One entry of the filtered log: `{ id, data, txid }`. */
  datatype LogEntry = LogEntry(id: string, data: string, txid: string)

  datatype Message =
    | DetailedStats(stats: map<string, nat>)    // { type: 'detailedStats', stats }
    | FilteredLogUpdate(log: seq<LogEntry>)     // { type: 'filteredLogUpdate', log }
    | UniqueIdCount(count: nat)                 // { type: 'uniqueIdCount', count }

  datatype Client = Client(state: ReadyState, sent: seq<Message>)

  /** What one client gets from a broadcast of `m`. */
  function Receive(c: Client, m: Message): Client {
    if c.state == Open then c.(sent := c.sent + [m]) else c
  }

  /** The clients after a broadcast of `m`, in the order `forEach` visits them. */
  function Deliver(clients: seq<Client>, m: Message): seq<Client> {
    if clients == [] then []
    else Deliver(clients[..|clients| - 1], m) + [Receive(clients[|clients| - 1], m)]
  }

  /** The clients after a sequence of broadcasts, one after another. */
  function DeliverAll(clients: seq<Client>, ms: seq<Message>): seq<Client>
    decreases |ms|
  {
    if ms == [] then clients else DeliverAll(Deliver(clients, ms[0]), ms[1..])
  }

  /** A broadcast sends `m` once to every OPEN client and to no other, and changes
      no client's state. */
  lemma {:induction false} DeliverReachesOpen(clients: seq<Client>, m: Message)
    ensures |Deliver(clients, m)| == |clients|
    ensures forall i :: 0 <= i < |clients| ==> Deliver(clients, m)[i].state == clients[i].state
    ensures forall i :: 0 <= i < |clients| && clients[i].state == Open ==>
              Deliver(clients, m)[i].sent == clients[i].sent + [m]
    ensures forall i :: 0 <= i < |clients| && clients[i].state != Open ==>
              Deliver(clients, m)[i] == clients[i]
  {
    if clients != [] {
      DeliverReachesOpen(clients[..|clients| - 1], m);
    }
  }

  /** Successive broadcasts reach each OPEN client in program order, all of them,
      and leave every other client as it was. */
  lemma {:induction false} DeliverAllInOrder(clients: seq<Client>, ms: seq<Message>)
    ensures |DeliverAll(clients, ms)| == |clients|
    ensures forall i :: 0 <= i < |clients| && clients[i].state == Open ==>
              DeliverAll(clients, ms)[i] == clients[i].(sent := clients[i].sent + ms)
    ensures forall i :: 0 <= i < |clients| && clients[i].state != Open ==>
              DeliverAll(clients, ms)[i] == clients[i]
    decreases |ms|
  {
    if ms != [] {
      var next := Deliver(clients, ms[0]);
      DeliverReachesOpen(clients, ms[0]);
      DeliverAllInOrder(next, ms[1..]);
      forall i | 0 <= i < |clients| && clients[i].state == Open
        ensures DeliverAll(clients, ms)[i] == clients[i].(sent := clients[i].sent + ms)
      {
        assert clients[i].sent + [ms[0]] + ms[1..] == clients[i].sent + ms;
      }
    }
  }

  lemma DeliverAllOne(clients: seq<Client>, m: Message)
    ensures DeliverAll(clients, [m]) == Deliver(clients, m)
  {
    assert [m][1..] == [];
  }

  lemma DeliverAllTwo(clients: seq<Client>, m1: Message, m2: Message)
    ensures DeliverAll(clients, [m1, m2]) == Deliver(Deliver(clients, m1), m2)
  {
    assert [m1, m2][1..] == [m2];
    DeliverAllOne(Deliver(clients, m1), m2);
  }

  /** The `forEach` loop: send `m` to every client whose state is OPEN. */
  method SendToOpen(clients: seq<Client>, m: Message) returns (out: seq<Client>)
    ensures out == Deliver(clients, m)
  {
    out := [];
    var i := 0;
    while i < |clients|
      invariant 0 <= i <= |clients|
      invariant out == Deliver(clients[..i], m)
    {
      var c := clients[i];
      if c.state == Open {
        c := c.(sent := c.sent + [m]);
      }
      assert clients[..i + 1][..i] == clients[..i];
      out := out + [c];
      i := i + 1;
    }
    assert clients[..i] == clients;
  }
}
