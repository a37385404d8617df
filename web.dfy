/** can_receiver_web.js: files every frame under its unpadded identifier key,
    keeps `uniqueIdCount`, the number of distinct identifiers seen, pushes that
    count to WebSocket clients whenever a new identifier appears, and serves
    one page over HTTP. */
module WebReceiver {
  import opened CanFrame
  import opened Hex
  import opened KeyedLists
  import opened FrameTable
  import opened Broadcast
  import opened Http

  /** `messageIdHex`: upper-case hex with no padding. */
  function MessageIdHex(id: nat): string {
    IdKey(id, 0)
  }

  /** The record kept per frame: `{ data, dlc, timestamp }`, with `data` the
      lower-case payload hex; the floating-point timestamp is not modelled. */
  datatype WebRecord = WebRecord(data: string, dlc: nat)

  function FrameKey(f: Frame): string {
    MessageIdHex(f.id)
  }

  function RecordOf(f: Frame): WebRecord {
    WebRecord(BytesHex(f.data, false), f.dlc)
  }

  /** Identifier 5 is keyed `0x5`, and 0x123 is keyed `0x123`. */
  lemma KeysAreUnpadded()
    ensures MessageIdHex(5) == "0x5"
    ensures MessageIdHex(0x123) == "0x123"
  {
    assert NatHex(0x12, true) == NatHex(1, true) + [Digit(2, true)];
    assert NatHex(0x123, true) == NatHex(0x12, true) + [Digit(3, true)];
  }

  /** The identifiers among `frames`. */
  ghost function IdsOf(frames: seq<Frame>): set<nat> {
    set f | f in frames :: f.id
  }

  /** The table built from `frames` has one key per distinct identifier, so
      `Object.keys(receivedCanMessages).length` counts the identifiers seen. */
  lemma KeyCountIsIdCount(frames: seq<Frame>)
    ensures |TableOf(frames, FrameKey, RecordOf).Keys| == |IdsOf(frames)|
  {
    var table := TableOf(frames, FrameKey, RecordOf);
    assert table.Keys == KeysOf(IdsOf(frames)) by {
      forall k ensures k in table <==> k in KeysOf(IdsOf(frames)) {
        CountsCountFrames(frames, FrameKey, RecordOf, k);
      }
    }
    KeysOfSize(IdsOf(frames));
  }

  /** The keys of a set of identifiers. */
  ghost function KeysOf(ids: set<nat>): set<string> {
    set id | id in ids :: MessageIdHex(id)
  }

  /** Distinct identifiers have distinct keys, so there are as many keys as
      identifiers. */
  lemma {:induction false} KeysOfSize(ids: set<nat>)
    ensures |KeysOf(ids)| == |ids|
    decreases |ids|
  {
    if ids != {} {
      var id :| id in ids;
      var rest := ids - {id};
      KeysOfSize(rest);
      assert KeysOf(ids) == KeysOf(rest) + {MessageIdHex(id)};
      if MessageIdHex(id) in KeysOf(rest) {
        var other :| other in rest && MessageIdHex(other) == MessageIdHex(id);
        IdKeyInjective(other, 0, id, 0);
        assert false;
      }
    }
  }

  /** The values in `s` never go down. */
  predicate NonDecreasing(s: seq<nat>) {
    forall i, j :: 0 <= i < j < |s| ==> s[i] <= s[j]
  }

  class Receiver {
    /** `Object.keys(receivedCanMessages)`, in creation order. */
    var order: seq<string>
    var receivedCanMessages: map<string, seq<WebRecord>>
    var uniqueIdCount: nat
    /** `wss.clients`. */
    var clients: seq<Client>
    /** Every frame received so far, oldest first. */
    ghost var frames: seq<Frame>
    /** Every count sent to a client so far, in the order they were sent. */
    ghost var announced: seq<nat>

    /** The table is the one the frames build; `uniqueIdCount` is up to date
        with it; no count sent so far exceeds it, and the counts sent never
        went down. */
    ghost predicate Valid()
      reads this`order, this`receivedCanMessages, this`frames, this`uniqueIdCount, this`announced
    {
      && Tracks(order, receivedCanMessages, frames, FrameKey, RecordOf)
      && uniqueIdCount == |order|
      && NonDecreasing(announced)
      && (forall i :: 0 <= i < |announced| ==> announced[i] <= uniqueIdCount)
    }

    constructor ()
      ensures Valid()
      ensures frames == [] && receivedCanMessages == map[] && uniqueIdCount == 0 && clients == []
    {
      order, receivedCanMessages, uniqueIdCount, clients := [], map[], 0, [];
      frames, announced := [], [];
    }

    /** `broadcastUniqueIdCount`: `uniqueIdCount` is brought up to the number of
        keys, and that number is sent to every OPEN client. */
    method BroadcastUniqueIdCount() returns (m: Message)
      requires Tracks(order, receivedCanMessages, frames, FrameKey, RecordOf)
      requires NonDecreasing(announced)
      requires forall i :: 0 <= i < |announced| ==> announced[i] <= |order|
      modifies this`uniqueIdCount, this`clients, this`announced
      ensures Valid()
      ensures uniqueIdCount == |receivedCanMessages.Keys|
      ensures m == UniqueIdCount(uniqueIdCount)
      ensures clients == Deliver(old(clients), m)
      ensures announced == old(announced) + [uniqueIdCount]
    {
      TableKeysOrdered(frames, FrameKey, RecordOf);
      KeyCount(order, receivedCanMessages);
      var currentCount := |order|;
      if currentCount != uniqueIdCount {
        uniqueIdCount := currentCount;
      }
      m := UniqueIdCount(uniqueIdCount);
      clients := SendToOpen(clients, m);
      announced := announced + [uniqueIdCount];
    }

    /** The filing half of `onMessage`: the frame's key gains one record at the
        end of its list, the list being created empty first when the key is new;
        `isNewId` says whether it was. */
    method RecordFrame(f: Frame) returns (isNewId: bool)
      requires Tracks(order, receivedCanMessages, frames, FrameKey, RecordOf)
      modifies this`order, this`receivedCanMessages, this`frames
      ensures Tracks(order, receivedCanMessages, frames, FrameKey, RecordOf)
      ensures frames == old(frames) + [f]
      ensures isNewId <==> MessageIdHex(f.id) !in old(receivedCanMessages)
      ensures receivedCanMessages == Append(old(receivedCanMessages), MessageIdHex(f.id), RecordOf(f))
      ensures |order| == |old(order)| + (if isNewId then 1 else 0)
    {
      var messageIdHex := MessageIdHex(f.id);
      TableKeysOrdered(frames, FrameKey, RecordOf);
      PushStep(order, receivedCanMessages, messageIdHex, RecordOf(f));
      isNewId := messageIdHex !in receivedCanMessages;
      if isNewId {
        receivedCanMessages := receivedCanMessages[messageIdHex := []];
        order := order + [messageIdHex];
      }
      receivedCanMessages := receivedCanMessages[messageIdHex :=
        receivedCanMessages[messageIdHex] + [WebRecord(BytesHex(f.data, false), f.dlc)]];
      TableStep(frames, f, FrameKey, RecordOf);
      frames := frames + [f];
    }

    /** The `onMessage` listener: the frame's key gains exactly one record and
        no other key changes; the count is broadcast exactly when the key is
        new, and then it is the new number of keys. */
    method OnMessage(f: Frame) returns (emitted: seq<Message>)
      requires Valid()
      modifies this
      ensures Valid()
      ensures frames == old(frames) + [f]
      ensures receivedCanMessages == Append(old(receivedCanMessages), MessageIdHex(f.id), RecordOf(f))
      ensures uniqueIdCount == |receivedCanMessages.Keys|
      ensures emitted == if MessageIdHex(f.id) in old(receivedCanMessages) then [] else [UniqueIdCount(uniqueIdCount)]
      ensures clients == DeliverAll(old(clients), emitted)
      ensures announced == old(announced) + (if MessageIdHex(f.id) in old(receivedCanMessages) then [] else [uniqueIdCount])
    {
      var isNewId := RecordFrame(f);
      if isNewId {
        var m := BroadcastUniqueIdCount();
        emitted := [m];
        DeliverAllOne(old(clients), m);
      } else {
        emitted := [];
        TableKeysOrdered(frames, FrameKey, RecordOf);
        KeyCount(order, receivedCanMessages);
      }
    }

    /** The `connection` handler: the new client is sent the current number of
        keys. */
    method OnConnection()
      requires Valid()
      modifies this`clients, this`announced
      ensures Valid()
      ensures clients == old(clients) + [Client(Open, [UniqueIdCount(|receivedCanMessages.Keys|)])]
      ensures announced == old(announced) + [|receivedCanMessages.Keys|]
    {
      TableKeysOrdered(frames, FrameKey, RecordOf);
      KeyCount(order, receivedCanMessages);
      var ws := Client(Open, []);
      ws := ws.(sent := ws.sent + [UniqueIdCount(|order|)]);
      assert ws.sent == [UniqueIdCount(|order|)];
      clients := clients + [ws];
      announced := announced + [|order|];
    }

    /** The `server.listen` callback once the channel has started. */
    method OnListening() returns (m: Message)
      requires Valid()
      modifies this`uniqueIdCount, this`clients, this`announced
      ensures Valid()
      ensures m == UniqueIdCount(|receivedCanMessages.Keys|)
      ensures clients == Deliver(old(clients), m)
      ensures announced == old(announced) + [uniqueIdCount]
    {
      m := BroadcastUniqueIdCount();
    }

    /** The WebSocket library moving client `i` to another ready state. */
    method SetReadyState(i: nat, state: ReadyState)
      requires Valid() && i < |clients|
      modifies this`clients
      ensures Valid()
      ensures clients == old(clients)[i := Client(state, old(clients)[i].sent)]
    {
      clients := clients[i := clients[i].(state := state)];
    }
  }

  /** The HTTP handler: `/` and `/index.html` get `index.html` as HTML (or 500
      when `fs.readFile` fails, as `readOk` says); every other URL gets 404. */
  function HandleRequest(url: string, readOk: bool): (r: Response)
    ensures r.Served? <==> (url == "/" || url == "/index.html") && readOk
    ensures r.Served? ==> r == Served("text/html", "index.html")
    ensures r == LoadError <==> (url == "/" || url == "/index.html") && !readOk
    ensures r == NotFound <==> !(url == "/" || url == "/index.html")
    ensures r != Forbidden
  {
    if url == "/" || url == "/index.html" then
      (if readOk then Served("text/html", "index.html") else LoadError)
    else NotFound
  }
}
