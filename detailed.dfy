/** can_receiver_detailed_web.js: counts frames per identifier under a
    zero-padded key, pushes the whole count table to WebSocket clients after
    every frame, and serves one page over HTTP. */
module DetailedReceiver {
  import opened CanFrame
  import opened Hex
  import opened KeyedLists
  import opened FrameTable
  import opened Broadcast
  import opened Http

  /** `messageIdHex`: upper-case hex, zero-padded to three digits. */
  function MessageIdHex(id: nat): string {
    IdKey(id, 3)
  }

  function FrameKey(f: Frame): string {
    MessageIdHex(f.id)
  }

  function StampOf(f: Frame): Stamp {
    Stamp
  }

  /** The snapshot after `frames` has a key for exactly the identifiers seen,
      counts under it exactly the frames with that identifier, and is never
      missing a key an earlier snapshot had. */
  lemma StatsCountFrames(frames: seq<Frame>, more: seq<Frame>, id: nat)
    ensures var stats := Counts(TableOf(frames, FrameKey, StampOf));
      && (MessageIdHex(id) in stats <==> exists f :: f in frames && f.id == id)
      && (MessageIdHex(id) in stats ==> stats[MessageIdHex(id)] == |Under(frames, FrameKey, MessageIdHex(id))|)
      && (forall g :: g in Under(frames, FrameKey, MessageIdHex(id)) <==> g in frames && g.id == id)
    ensures var later := Counts(TableOf(frames + more, FrameKey, StampOf));
      MessageIdHex(id) in Counts(TableOf(frames, FrameKey, StampOf)) ==> MessageIdHex(id) in later
  {
    var k := MessageIdHex(id);
    CountsCountFrames(frames, FrameKey, StampOf, k);
    CountsCountFrames(frames + more, FrameKey, StampOf, k);
    forall g | g in frames && FrameKey(g) == k ensures g.id == id {
      IdKeyInjective(g.id, 3, id, 3);
    }
    if exists f :: f in frames && f.id == id {
      var f :| f in frames && f.id == id;
      assert f in frames + more;
    }
  }

  class Receiver {
    /** `Object.keys(receivedCanMessages)`, in creation order. */
    var order: seq<string>
    var receivedCanMessages: map<string, seq<Stamp>>
    /** `wss.clients`. */
    var clients: seq<Client>
    /** Every frame received so far, oldest first. */
    ghost var frames: seq<Frame>

    /** The count table is the one the frames received so far build. */
    ghost predicate Valid()
      reads this`order, this`receivedCanMessages, this`frames
    {
      Tracks(order, receivedCanMessages, frames, FrameKey, StampOf)
    }

    constructor ()
      ensures Valid()
      ensures frames == [] && receivedCanMessages == map[] && clients == []
    {
      order, receivedCanMessages, clients := [], map[], [];
      frames := [];
    }

    /** The counting half of `onMessage`: the frame's key gains one `{ timestamp }`
        at the end of its list, the list being created empty first when the key
        is new. */
    method RecordFrame(f: Frame)
      requires Valid()
      modifies this`order, this`receivedCanMessages, this`frames
      ensures Valid()
      ensures frames == old(frames) + [f]
      ensures receivedCanMessages == Append(old(receivedCanMessages), MessageIdHex(f.id), Stamp)
    {
      var messageIdHex := MessageIdHex(f.id);
      TableKeysOrdered(frames, FrameKey, StampOf);
      PushStep(order, receivedCanMessages, messageIdHex, Stamp);
      if messageIdHex !in receivedCanMessages {
        receivedCanMessages := receivedCanMessages[messageIdHex := []];
        order := order + [messageIdHex];
      }
      receivedCanMessages := receivedCanMessages[messageIdHex := receivedCanMessages[messageIdHex] + [Stamp]];
      TableStep(frames, f, FrameKey, StampOf);
      frames := frames + [f];
    }

    /** `broadcastDetailedStats`: the snapshot, every key with its list's
        length, to every OPEN client. */
    method BroadcastDetailedStats() returns (m: Message)
      requires Valid()
      modifies this`clients
      ensures m == DetailedStats(Counts(receivedCanMessages))
      ensures clients == Deliver(old(clients), m)
    {
      TableKeysOrdered(frames, FrameKey, StampOf);
      var detailedStats := LengthSnapshot(order, receivedCanMessages);
      m := DetailedStats(detailedStats);
      clients := SendToOpen(clients, m);
    }

    /** The `onMessage` listener: the frame's key gains exactly one element and
        no other key changes, then exactly one `detailedStats` broadcast. */
    method OnMessage(f: Frame) returns (emitted: seq<Message>)
      requires Valid()
      modifies this
      ensures Valid()
      ensures frames == old(frames) + [f]
      ensures receivedCanMessages == Append(old(receivedCanMessages), MessageIdHex(f.id), Stamp)
      ensures emitted == [DetailedStats(Counts(receivedCanMessages))]
      ensures clients == DeliverAll(old(clients), emitted)
    {
      RecordFrame(f);
      var stats := BroadcastDetailedStats();
      emitted := [stats];
      DeliverAllOne(old(clients), stats);
    }

    /** The `connection` handler: the new client is sent exactly one message,
        the current snapshot. */
    method OnConnection()
      requires Valid()
      modifies this`clients
      ensures Valid()
      ensures clients == old(clients) + [Client(Open, [DetailedStats(Counts(receivedCanMessages))])]
    {
      TableKeysOrdered(frames, FrameKey, StampOf);
      var currentDetailedStats := LengthSnapshot(order, receivedCanMessages);
      var ws := Client(Open, []);
      ws := ws.(sent := ws.sent + [DetailedStats(currentDetailedStats)]);
      assert ws.sent == [DetailedStats(currentDetailedStats)];
      clients := clients + [ws];
    }

    /** The `server.listen` callback once the channel has started: one snapshot
        to every OPEN client. */
    method OnListening() returns (m: Message)
      requires Valid()
      modifies this`clients
      ensures Valid()
      ensures m == DetailedStats(Counts(receivedCanMessages))
      ensures clients == Deliver(old(clients), m)
    {
      m := BroadcastDetailedStats();
    }

    /** The WebSocket library moving client `i` to another ready state. */
    method SetReadyState(i: nat, state: ReadyState)
      requires Valid() && i < |clients|
      modifies this`clients
      ensures Valid()
      ensures clients == old(clients)[i := Client(state, old(clients)[i].sent)]
    {
      clients := clients[i := clients[i].(state := state)];
    }
  }

  const HTML_FILE_NAME: string := "index_detailed.html"

  /** `filePath`: `/` and `/index.html` name the page; any other URL names itself. */
  function FilePath(url: string): string {
    if url == "/" || url == "/index.html" then HTML_FILE_NAME else url
  }

  /** The HTTP handler. `fullPath` is `path.join(__dirname, FilePath(url))`,
      computed by Node and given here; `readOk` says whether `fs.readFile`
      succeeded. Only the page itself is ever served. */
  function HandleRequest(url: string, root: string, fullPath: string, readOk: bool): (r: Response)
    ensures r == Forbidden <==> !StartsWith(fullPath, root)
    ensures r.Served? <==>
      StartsWith(fullPath, root) && readOk && (url == "/" || url == "/index.html" || url == HTML_FILE_NAME)
    ensures r.Served? ==> r == Served("text/html", HTML_FILE_NAME)
    ensures r == LoadError <==>
      StartsWith(fullPath, root) && !readOk && (url == "/" || url == "/index.html" || url == HTML_FILE_NAME)
    ensures r == NotFound <==>
      StartsWith(fullPath, root) && !(url == "/" || url == "/index.html" || url == HTML_FILE_NAME)
  {
    var filePath := FilePath(url);
    if !StartsWith(fullPath, root) then Forbidden
    else if filePath == HTML_FILE_NAME then (if readOk then Served("text/html", HTML_FILE_NAME) else LoadError)
    else NotFound
  }

  /** `/index_detailed.html` is not the page: the mapped path keeps its leading
      slash, so it fails the comparison and gets 404 even when the file exists. */
  lemma SlashedPageNameNotFound(root: string, fullPath: string, readOk: bool)
    requires StartsWith(fullPath, root)
    ensures HandleRequest("/index_detailed.html", root, fullPath, readOk) == NotFound
  {
    assert "/index_detailed.html" != HTML_FILE_NAME by {
      assert |"/index_detailed.html"| != |HTML_FILE_NAME|;
    }
  }
}
