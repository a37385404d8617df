/** can_receiver_filtered.js: counts frames per identifier, keeps a bounded log of
    the frames whose identifier lies in 0x700..0x77F, pushes both to WebSocket
    clients, and serves the page and its assets over HTTP. */
module FilteredReceiver {
  import opened CanFrame
  import opened Hex
  import opened KeyedLists
  import opened FrameTable
  import opened Broadcast
  import opened Http

  const FILTER_ID_MIN: nat := 0x700
  const FILTER_ID_MAX: nat := 0x77F
  const MAX_FILTERED_LOG_SIZE: nat := 50

  /** `messageIdHex`: upper-case hex, zero-padded to three digits. */
  function MessageIdHex(id: nat): string {
    IdKey(id, 3)
  }

  predicate InFilterRange(id: nat) {
    id >= FILTER_ID_MIN && id <= FILTER_ID_MAX
  }

  /** The `{ id, data, txid }` entry an in-range frame adds to the log. */
  function MakeLogEntry(f: Frame): LogEntry {
    var data := BytesHex(f.data, true);
    LogEntry(MessageIdHex(f.id), data, Txid(data))
  }

  /** The key a frame is counted under. */
  function FrameKey(f: Frame): string {
    MessageIdHex(f.id)
  }

  function StampOf(f: Frame): Stamp {
    Stamp
  }

  /** The `detailedStats` snapshot after `frames` has a key for exactly the
      identifiers seen, and counts under it exactly the frames with that
      identifier. */
  lemma StatsCountFrames(frames: seq<Frame>, id: nat)
    ensures var stats := Counts(TableOf(frames, FrameKey, StampOf));
      && (MessageIdHex(id) in stats <==> exists f :: f in frames && f.id == id)
      && (MessageIdHex(id) in stats ==> stats[MessageIdHex(id)] == |Under(frames, FrameKey, MessageIdHex(id))|)
      && (forall g :: g in Under(frames, FrameKey, MessageIdHex(id)) <==> g in frames && g.id == id)
  {
    var k := MessageIdHex(id);
    CountsCountFrames(frames, FrameKey, StampOf, k);
    forall g | g in frames && FrameKey(g) == k ensures g.id == id {
      IdKeyInjective(g.id, 3, id, 3);
    }
  }

  /** The log entries of the in-range frames among `frames`, oldest first. */
  ghost function QualifyingEntries(frames: seq<Frame>): seq<LogEntry> {
    if frames == [] then []
    else
      var f := frames[|frames| - 1];
      QualifyingEntries(frames[..|frames| - 1]) + (if InFilterRange(f.id) then [MakeLogEntry(f)] else [])
  }

  lemma QualifyingStep(frames: seq<Frame>, f: Frame)
    ensures QualifyingEntries(frames + [f]) ==
      QualifyingEntries(frames) + (if InFilterRange(f.id) then [MakeLogEntry(f)] else [])
  {
    assert (frames + [f])[..|frames|] == frames;
  }

  /** The last `n` elements of `s`, or all of `s` when it is shorter. */
  function LastN<T>(s: seq<T>, n: nat): (r: seq<T>)
    ensures |r| == if |s| < n then |s| else n
  {
    if |s| <= n then s else s[|s| - n..]
  }

  /** `log.push(e)`, then one `log.shift()` if the log is now longer than `n`. */
  function PushBounded<T>(log: seq<T>, e: T, n: nat): seq<T> {
    var grown := log + [e];
    if |grown| > n then grown[1..] else grown
  }

  /** Pushing onto the last `n` entries keeps exactly the last `n` entries:
      the log is always the newest min(n, count) entries in arrival order. */
  lemma {:induction false} PushBoundedKeepsLast<T>(s: seq<T>, e: T, n: nat)
    requires n > 0
    ensures PushBounded(LastN(s, n), e, n) == LastN(s + [e], n)
  {
    if |s| >= n {
      var t := s + [e];
      assert LastN(s, n) + [e] == t[|t| - n - 1..];
      assert t[|t| - n - 1..][1..] == t[|t| - n..];
    }
  }

  /** One frame moves the log the way `onMessage` moves it. */
  lemma LogStep(frames: seq<Frame>, f: Frame, log: seq<LogEntry>, log': seq<LogEntry>)
    requires log == LastN(QualifyingEntries(frames), MAX_FILTERED_LOG_SIZE)
    requires log' == if InFilterRange(f.id) then PushBounded(log, MakeLogEntry(f), MAX_FILTERED_LOG_SIZE) else log
    ensures log' == LastN(QualifyingEntries(frames + [f]), MAX_FILTERED_LOG_SIZE)
  {
    QualifyingStep(frames, f);
    if InFilterRange(f.id) {
      PushBoundedKeepsLast(QualifyingEntries(frames), MakeLogEntry(f), MAX_FILTERED_LOG_SIZE);
    }
  }

  /** The log holds the newest MAX_FILTERED_LOG_SIZE in-range entries of `frames`. */
  ghost predicate LogTracks(log: seq<LogEntry>, frames: seq<Frame>) {
    log == LastN(QualifyingEntries(frames), MAX_FILTERED_LOG_SIZE)
  }

  class Receiver {
    /** `Object.keys(receivedCanMessages)`, in creation order. */
    var order: seq<string>
    var receivedCanMessages: map<string, seq<Stamp>>
    var filteredMessagesLog: seq<LogEntry>
    /** `wss.clients`. */
    var clients: seq<Client>
    /** Every frame received so far, oldest first. */
    ghost var frames: seq<Frame>

    /** The count table is the one the frames received so far build, and the
        log is the newest MAX_FILTERED_LOG_SIZE in-range entries. */
    ghost predicate Valid()
      reads this`order, this`receivedCanMessages, this`filteredMessagesLog, this`frames
    {
      Tracks(order, receivedCanMessages, frames, FrameKey, StampOf) && LogTracks(filteredMessagesLog, frames)
    }

    /** The first half of `onMessage`: file the frame under its key. */
    method RecordFrame(f: Frame) returns (messageIdHex: string)
      requires Tracks(order, receivedCanMessages, frames, FrameKey, StampOf)
      modifies this`order, this`receivedCanMessages, this`frames
      ensures Tracks(order, receivedCanMessages, frames, FrameKey, StampOf)
      ensures frames == old(frames) + [f]
      ensures messageIdHex == MessageIdHex(f.id)
      ensures receivedCanMessages == Append(old(receivedCanMessages), messageIdHex, Stamp)
    {
      messageIdHex := MessageIdHex(f.id);
      TableKeysOrdered(frames, FrameKey, StampOf);
      PushStep(order, receivedCanMessages, messageIdHex, Stamp);
      if messageIdHex !in receivedCanMessages {
        receivedCanMessages := receivedCanMessages[messageIdHex := []];
        order := order + [messageIdHex];
      }
      receivedCanMessages := receivedCanMessages[messageIdHex := receivedCanMessages[messageIdHex] + [Stamp]];
      TableStep(frames, f, FrameKey, StampOf);
      frames := frames + [f];
    }

    constructor ()
      ensures Valid()
      ensures frames == [] && receivedCanMessages == map[] && filteredMessagesLog == [] && clients == []
    {
      order, receivedCanMessages, filteredMessagesLog, clients := [], map[], [], [];
      frames := [];
    }

    /** `broadcastDetailedStats`: one `detailedStats` snapshot to every OPEN client. */
    method BroadcastDetailedStats() returns (m: Message)
      requires Tracks(order, receivedCanMessages, frames, FrameKey, StampOf)
      modifies this`clients
      ensures m == DetailedStats(Counts(receivedCanMessages))
      ensures clients == Deliver(old(clients), m)
    {
      TableKeysOrdered(frames, FrameKey, StampOf);
      var detailedStats := LengthSnapshot(order, receivedCanMessages);
      m := DetailedStats(detailedStats);
      clients := SendToOpen(clients, m);
    }

    /** `broadcastFilteredLog`: the whole log to every OPEN client. */
    method BroadcastFilteredLog() returns (m: Message)
      modifies this`clients
      ensures m == FilteredLogUpdate(filteredMessagesLog)
      ensures clients == Deliver(old(clients), m)
    {
      m := FilteredLogUpdate(filteredMessagesLog);
      clients := SendToOpen(clients, m);
    }

    /** `filteredMessagesLog.push(logEntry)`, then one `shift()` once the log
        is longer than MAX_FILTERED_LOG_SIZE. */
    method PushFilteredLog(logEntry: LogEntry)
      modifies this`filteredMessagesLog
      ensures filteredMessagesLog == PushBounded(old(filteredMessagesLog), logEntry, MAX_FILTERED_LOG_SIZE)
    {
      filteredMessagesLog := filteredMessagesLog + [logEntry];
      if |filteredMessagesLog| > MAX_FILTERED_LOG_SIZE {
        filteredMessagesLog := filteredMessagesLog[1..];
      }
    }

    /** The `onMessage` listener. The frame's key gains exactly one element
        (the key is created first if new) and no other key changes; an in-range
        frame is pushed onto the bounded log, any other frame leaves it alone.
        One `detailedStats` broadcast follows every frame, and one
        `filteredLogUpdate` broadcast follows an in-range frame. */
    method OnMessage(f: Frame) returns (emitted: seq<Message>)
      requires Valid()
      modifies this
      ensures Valid()
      ensures frames == old(frames) + [f]
      ensures receivedCanMessages == Append(old(receivedCanMessages), MessageIdHex(f.id), Stamp)
      ensures filteredMessagesLog ==
        if InFilterRange(f.id) then PushBounded(old(filteredMessagesLog), MakeLogEntry(f), MAX_FILTERED_LOG_SIZE)
        else old(filteredMessagesLog)
      ensures |filteredMessagesLog| <= MAX_FILTERED_LOG_SIZE
      ensures emitted == [DetailedStats(Counts(receivedCanMessages))] +
        (if InFilterRange(f.id) then [FilteredLogUpdate(filteredMessagesLog)] else [])
      ensures clients == DeliverAll(old(clients), emitted)
    {
      var numericId := f.id;
      var messageDataHex := BytesHex(f.data, true);
      var messageTXID := Txid(messageDataHex);
      var messageIdHex := RecordFrame(f);
      ghost var clients0 := clients;
      var stats := BroadcastDetailedStats();
      emitted := [stats];

      if numericId >= FILTER_ID_MIN && numericId <= FILTER_ID_MAX {
        var logEntry := LogEntry(messageIdHex, messageDataHex, messageTXID);
        PushFilteredLog(logEntry);
        var update := BroadcastFilteredLog();
        emitted := emitted + [update];
        assert clients == DeliverAll(clients0, emitted) by {
          DeliverAllTwo(clients0, stats, update);
        }
      } else {
        assert clients == DeliverAll(clients0, emitted) by {
          DeliverAllOne(clients0, stats);
        }
      }
      LogStep(old(frames), f, old(filteredMessagesLog), filteredMessagesLog);
    }

    /** The `connection` handler: the new client is sent the current stats
        snapshot first, then the current filtered log. */
    method OnConnection()
      requires Valid()
      modifies this`clients
      ensures Valid()
      ensures clients == old(clients) +
        [Client(Open, [DetailedStats(Counts(receivedCanMessages)), FilteredLogUpdate(filteredMessagesLog)])]
    {
      TableKeysOrdered(frames, FrameKey, StampOf);
      var currentDetailedStats := LengthSnapshot(order, receivedCanMessages);
      var ws := Client(Open, []);
      ws := ws.(sent := ws.sent + [DetailedStats(currentDetailedStats)]);
      ws := ws.(sent := ws.sent + [FilteredLogUpdate(filteredMessagesLog)]);
      assert ws.sent == [DetailedStats(currentDetailedStats), FilteredLogUpdate(filteredMessagesLog)];
      clients := clients + [ws];
    }

    /** The `server.listen` callback once the channel has started: the current
        stats, then the current log, to every OPEN client. */
    method OnListening() returns (emitted: seq<Message>)
      requires Valid()
      modifies this`clients
      ensures Valid()
      ensures emitted == [DetailedStats(Counts(receivedCanMessages)), FilteredLogUpdate(filteredMessagesLog)]
      ensures clients == DeliverAll(old(clients), emitted)
    {
      TableKeysOrdered(frames, FrameKey, StampOf);
      var stats := BroadcastDetailedStats();
      var update := BroadcastFilteredLog();
      emitted := [stats, update];
      DeliverAllTwo(old(clients), stats, update);
    }

    /** The WebSocket library moving client `i` to another ready state. */
    method SetReadyState(i: nat, state: ReadyState)
      requires Valid() && i < |clients|
      modifies this`clients
      ensures Valid()
      ensures clients == old(clients)[i := Client(state, old(clients)[i].sent)]
    {
      clients := clients[i := clients[i].(state := state)];
    }
  }

  const HTML_FILE_NAME: string := "index_filtered.html"

  /** `filePath`: the page's URLs name the page; any other URL names itself. */
  function FilePath(url: string): string {
    if url == "/" || url == "/index.html" || url == "/" + HTML_FILE_NAME then HTML_FILE_NAME else url
  }

  /** The Content-Type chosen by substring tests on the full path, in a fixed order. */
  function ContentType(fullPath: string): (t: string)
    ensures t in {"text/html", "text/javascript", "text/css", "text/plain"}
    ensures t == "text/html" <==> Includes(fullPath, ".html")
  {
    if Includes(fullPath, ".html") then "text/html"
    else if Includes(fullPath, ".js") then "text/javascript"
    else if Includes(fullPath, ".css") then "text/css"
    else "text/plain"
  }

  /** Since ".js" is matched as a substring, a `.json` path is sent as JavaScript
      (unless it also contains ".html"). */
  lemma JsonIsJavaScript(fullPath: string)
    requires Includes(fullPath, ".json") && !Includes(fullPath, ".html")
    ensures ContentType(fullPath) == "text/javascript"
  {
    IncludesIffOccurs(fullPath, ".json");
    var i: nat :| OccursAt(fullPath, ".json", i);
    assert fullPath[i..i + 3] == fullPath[i..i + 5][..3];
    assert OccursAt(fullPath, ".js", i);
    IncludesIffOccurs(fullPath, ".js");
  }

  /** The HTTP handler. `root` is `__dirname`; `fullPath` is
      `path.join(__dirname, FilePath(url))`, computed by Node and given here;
      `readOk` says whether `fs.readFile(fullPath)` succeeded. The traversal test
      comes first, then the read; the served file is named relative to `root`. */
  function HandleRequest(url: string, root: string, fullPath: string, readOk: bool): (r: Response)
    ensures r == Forbidden <==> !StartsWith(fullPath, root)
    ensures r == LoadError <==> StartsWith(fullPath, root) && !readOk
    ensures r.Served? <==> StartsWith(fullPath, root) && readOk
    ensures r.Served? ==> r.file == FilePath(url) && r.contentType == ContentType(fullPath)
  {
    if !StartsWith(fullPath, root) then Forbidden
    else if !readOk then LoadError
    else Served(ContentType(fullPath), FilePath(url))
  }

  /** `/`, `/index.html` and `/index_filtered.html` all get the page as HTML. */
  lemma PageServedAsHtml(url: string, root: string, fullPath: string)
    requires url == "/" || url == "/index.html" || url == "/index_filtered.html"
    requires StartsWith(fullPath, root)
    requires |fullPath| >= |HTML_FILE_NAME| && fullPath[|fullPath| - |HTML_FILE_NAME|..] == HTML_FILE_NAME
    ensures HandleRequest(url, root, fullPath, true) == Served("text/html", HTML_FILE_NAME)
  {
    var i := |fullPath| - |HTML_FILE_NAME| + 14;
    assert fullPath[i..i + 5] == ".html";
    assert OccursAt(fullPath, ".html", i);
    IncludesIffOccurs(fullPath, ".html");
  }
}
