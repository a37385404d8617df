# CAN receivers: per-identifier tables, filtered log, broadcasts and shutdown dump

This project models the bookkeeping of four Node.js CAN-bus listeners. Each one
receives frames from a socketcan channel and files every frame in
`receivedCanMessages`. That is an object keyed by the frame's identifier written
as `0x` plus upper-case hex, and each key holds one list element per frame.

- **can_receiver_filtered.js** pads keys to three digits and counts frames. It
  also keeps `filteredMessagesLog`, the newest 50 `{ id, data, txid }` entries
  of frames whose identifier lies in 0x700..0x77F. It pushes `detailedStats`
  and `filteredLogUpdate` messages to the OPEN WebSocket clients, and serves
  the page and its assets, choosing the Content-Type by substring.
- **can_receiver_detailed_web.js** pads keys to three digits. It pushes the
  whole count table after every frame, and serves one page or 404.
- **can_receiver_web.js** does not pad keys. It stores `{ data, dlc }` records
  and keeps `uniqueIdCount`, which it pushes whenever a new identifier appears.
  It serves `index.html` or 404.
- **gemini-can.js** does not pad keys. With `storeReceivedMessages` on, it
  stores every frame. At shutdown it dumps the store, sorting the identifiers
  by numeric value and numbering each identifier's messages from 1 in arrival
  order.

How the model is laid out:

- **Modules.** Each source file is one module with one class (`Receiver` or
  `CanLogger`). Its fields are the file's module-level state. Its methods are
  the event handlers: `OnMessage`, `OnConnection`, `OnListening` and
  `Shutdown`.
- **The `receivedCanMessages` object.** It is a `map` from key to `seq`,
  together with `order`, the key creation order that `for…in` and
  `Object.keys` visit.
- **The class invariants.** Each invariant says the table is the one that the
  frames received so far build (`FrameTable.TableOf`). In the filtered
  receiver, it also says the log is the last 50 in-range entries of those
  frames. Properties about the frames are proved against this
  specification.
- **WebSocket clients.** A client is its `readyState` plus the messages sent to
  it. A broadcast is the `forEach` loop `Broadcast.SendToOpen`, proved equal to
  the function `Broadcast.Deliver`.
- **HTTP handlers.** They are functions from the URL to a `Response`. The path
  that `path.join` computes and the outcome of `fs.readFile` are inputs.

## Model

| member | source | states |
|---|---|---|
| Hex.NatHex | can_receiver_filtered.js:117 | `id.toString(16).toUpperCase()` is a non-empty string of hex digits with no lower-case letter and no leading zero unless the identifier is 0 |
| Hex.NatHexValue | can_receiver_filtered.js:117 | the hex numeral read back gives the identifier |
| Hex.PadStart | can_receiver_filtered.js:117 | `padStart(width, fill)`: the string itself when it already has `width` characters, otherwise fill characters in front up to `width`; its shape is stated by `Hex.PadStartShape` |
| Hex.PadStartShape | can_receiver_filtered.js:117 | `padStart(width, '0')` leaves a longer string whole and otherwise prefixes only fill characters, never truncating |
| Hex.IdKey | can_receiver_filtered.js:117 | the key a frame is filed under: `0x`, then the upper-case hex of the identifier left-padded with `0` to `width` digits (3 in the filtered and detailed receivers, 0 in the other two); stated by `Hex.IdKeyShape`, `Hex.IdKeyParses` and `Hex.IdKeyInjective` |
| Hex.IdKeyShape | can_receiver_filtered.js:117 | a key is `0x` followed by at least `width` and at least one upper-case hex digits |
| Hex.HexPrefix | gemini-can.js:95 | `parseInt` reads the longest leading run of hex digits and stops at the first other character |
| Hex.ParseInt16 | gemini-can.js:95 | `parseInt(s, 16)`: skip a `0x`/`0X` prefix, read the longest run of hex digits, `None` for `NaN` when there is none; its inverse property is `Hex.IdKeyParses` |
| Hex.IdKeyParses | gemini-can.js:95 | `parseInt(key, 16)` of a formatted key gives back the identifier, under any padding |
| Hex.IdKeyInjective | can_receiver_filtered.js:117 | distinct identifiers get distinct keys, even under different padding widths |
| Hex.BytesHex | can_receiver_filtered.js:118 | the payload hex has two hex digits per byte |
| Hex.BytesHexCase | can_receiver_filtered.js:118 | the upper-cased payload hex has no lower-case letter, and the plain `toString('hex')` (as stored at can_receiver_web.js:95) has no upper-case letter |
| Hex.BytesHexRoundTrip | can_receiver_filtered.js:118 | the payload hex decodes back to the payload, upper- or lower-case |
| Hex.Txid | can_receiver_filtered.js:119 | `substring(0, 8)`: the first eight characters, or the whole string when shorter; stated in terms of the payload by `Hex.TxidIsFirstFourBytes` |
| Hex.TxidIsFirstFourBytes | can_receiver_filtered.js:119 | `txid` is the hex of the first four payload bytes, or of all of them when there are fewer, without padding |
| Http.Includes | can_receiver_filtered.js:48 | `s.includes(sub)` as a left-to-right scan; its reference definition is `Http.IncludesIffOccurs` |
| Http.IncludesIffOccurs | can_receiver_filtered.js:48 | `includes` holds exactly when the substring occurs at some position |
| KeyedLists.Append | can_receiver_filtered.js:126-129 | after a frame, its key exists and its list is the old list (or the empty list for a new key) plus one element; no other key changes and none disappears |
| KeyedLists.AppendKeyCount | can_receiver_web.js:88-91 | a frame adds a key exactly when its key is new |
| KeyedLists.AppendKeepsOrder | can_receiver_filtered.js:126-129 | the key order still lists every key once, a new key going last |
| KeyedLists.PushStep | can_receiver_filtered.js:126-129 | creating the list when missing and then pushing is the same as `Append`, and the key order grows the same way |
| KeyedLists.LengthSnapshot | can_receiver_filtered.js:72-75 | the `for…in` snapshot has exactly the table's keys, each mapped to the length of its list |
| KeyedLists.KeyCount | can_receiver_web.js:37 | `Object.keys(...).length` is the number of distinct keys |
| FrameTable.Under | can_receiver_filtered.js:126-129 | the frames filed under a key are exactly the frames whose key it is |
| FrameTable.Records | can_receiver_web.js:94-98 | one record per frame, in arrival order |
| FrameTable.TableStep | can_receiver_filtered.js:126-129 | one more frame is one more `Append` on the table and one more `AddKey` on the key order |
| FrameTable.TableKeysOrdered | can_receiver_filtered.js:73 | the key order built from the frames lists the table's keys, each once |
| FrameTable.TableLists | can_receiver_web.js:88-98 | a key is present exactly when some frame was filed under it, and its list is those frames' records in arrival order |
| FrameTable.CountsCountFrames | can_receiver_detailed_web.js:49-51 | the snapshot has a key exactly when a frame was filed under it, with the number of those frames |
| Broadcast.Deliver | can_receiver_filtered.js:77-79 | the clients after one broadcast: each OPEN client gets the message appended, in `forEach` order; its meaning is stated by `Broadcast.DeliverReachesOpen` |
| Broadcast.DeliverReachesOpen | can_receiver_filtered.js:77-79 | a broadcast sends the message once to every OPEN client and to no other, and changes no client's state |
| Broadcast.DeliverAllInOrder | can_receiver_filtered.js:130-143 | successive broadcasts reach every OPEN client in program order and leave other clients untouched |
| Broadcast.DeliverAllOne | can_receiver_detailed_web.js:118 | proof helper: a single broadcast, such as the one after each frame, equals the one-element broadcast sequence |
| Broadcast.DeliverAllTwo | can_receiver_filtered.js:154-155 | two broadcasts in a row as a sequence of broadcasts |
| Broadcast.SendToOpen | can_receiver_filtered.js:77-79 | the `forEach` loop delivers exactly as `Deliver` does |
| FilteredReceiver.StatsCountFrames | can_receiver_filtered.js:125-129 | the snapshot has a key for exactly the identifiers seen, counting exactly the frames with that identifier |
| FilteredReceiver.InFilterRange | can_receiver_filtered.js:133 | `FILTER_ID_MIN <= id <= FILTER_ID_MAX`, bounds included (0x700 and 0x77F, lines 11-12) |
| FilteredReceiver.MakeLogEntry | can_receiver_filtered.js:134-138 | the `{ id, data, txid }` entry: the padded key, the upper-case payload hex and its first eight characters |
| FilteredReceiver.QualifyingStep | can_receiver_filtered.js:133 | a frame adds a log entry to the qualifying entries exactly when 0x700 <= id <= 0x77F, bounds included |
| FilteredReceiver.LastN | can_receiver_filtered.js:13 | the log keeps min(50, n) entries |
| FilteredReceiver.PushBounded | can_receiver_filtered.js:139-142 | `push`, then exactly one `shift` when the length now exceeds the bound; its meaning is stated by `FilteredReceiver.PushBoundedKeepsLast` |
| FilteredReceiver.PushBoundedKeepsLast | can_receiver_filtered.js:139-142 | a push followed by one shift past 50 keeps exactly the newest 50 entries in arrival order |
| FilteredReceiver.LogStep | can_receiver_filtered.js:133-144 | after a frame the log is the newest 50 in-range entries of all frames received; an out-of-range frame leaves it unchanged |
| FilteredReceiver.Receiver.constructor | can_receiver_filtered.js:16-17 | the table and the log start empty |
| FilteredReceiver.Receiver.RecordFrame | can_receiver_filtered.js:117-129 | the frame's padded key gains one element, the frame history grows by the frame, and the table still matches the frames |
| FilteredReceiver.Receiver.BroadcastDetailedStats | can_receiver_filtered.js:71-80 | the message is the count snapshot, delivered to every OPEN client |
| FilteredReceiver.Receiver.BroadcastFilteredLog | can_receiver_filtered.js:82-87 | the message is the whole log, delivered to every OPEN client |
| FilteredReceiver.Receiver.PushFilteredLog | can_receiver_filtered.js:139-142 | push, then one shift when the log is longer than 50 |
| FilteredReceiver.Receiver.OnMessage | can_receiver_filtered.js:115-145 | count table updated by `Append`; log pushed only for an in-range frame and never longer than 50; exactly one `detailedStats` and, only when in range, one `filteredLogUpdate`, delivered in that order to OPEN clients |
| FilteredReceiver.Receiver.OnConnection | can_receiver_filtered.js:89-103 | the new client gets the snapshot first, then the log, and nothing else |
| FilteredReceiver.Receiver.OnListening | can_receiver_filtered.js:148-161 | the current snapshot, then the current log, to every OPEN client |
| FilteredReceiver.Receiver.SetReadyState | can_receiver_filtered.js:78 | a client's ready state changes and nothing else does |
| FilteredReceiver.ContentType | can_receiver_filtered.js:48-60 | one of four types, and `text/html` exactly when the path contains `.html` |
| FilteredReceiver.JsonIsJavaScript | can_receiver_filtered.js:51-53 | a `.json` path without `.html` is sent as `text/javascript` |
| FilteredReceiver.FilePath | can_receiver_filtered.js:30-32 | `/`, `/index.html` and `/index_filtered.html` map to `index_filtered.html`; any other URL maps to itself |
| FilteredReceiver.HandleRequest | can_receiver_filtered.js:29-61 | 403 exactly when the path leaves the root; otherwise 500 exactly when the read fails, else 200 with the mapped file and the substring-chosen type |
| FilteredReceiver.PageServedAsHtml | can_receiver_filtered.js:30-32 | `/`, `/index.html` and `/index_filtered.html` get `index_filtered.html` as `text/html` |
| DetailedReceiver.StatsCountFrames | can_receiver_detailed_web.js:106-115 | the snapshot has a key for exactly the identifiers seen, counts exactly their frames, and never loses a key as more frames arrive |
| DetailedReceiver.Receiver.constructor | can_receiver_detailed_web.js:13 | the table starts empty |
| DetailedReceiver.Receiver.RecordFrame | can_receiver_detailed_web.js:98-115 | the frame's padded key gains one element, other keys unchanged, and the table still matches the frames |
| DetailedReceiver.Receiver.BroadcastDetailedStats | can_receiver_detailed_web.js:47-64 | the message is the count snapshot, delivered to every OPEN client |
| DetailedReceiver.Receiver.OnMessage | can_receiver_detailed_web.js:97-119 | one `Append` on the table, then exactly one `detailedStats` broadcast of the new snapshot |
| DetailedReceiver.Receiver.OnConnection | can_receiver_detailed_web.js:66-82 | the new client gets exactly one message, the current snapshot |
| DetailedReceiver.Receiver.OnListening | can_receiver_detailed_web.js:122-134 | the current snapshot to every OPEN client |
| DetailedReceiver.Receiver.SetReadyState | can_receiver_detailed_web.js:59 | a client's ready state changes and nothing else does |
| DetailedReceiver.FilePath | can_receiver_detailed_web.js:18 | `/` and `/index.html` map to `index_detailed.html`; any other URL maps to itself, slash included |
| DetailedReceiver.HandleRequest | can_receiver_detailed_web.js:16-42 | 403 exactly when the path leaves the root; otherwise the page as `text/html` (or 500) for `/`, `/index.html` and the bare `index_detailed.html` (which maps to itself and so passes the `filePath === 'index_detailed.html'` test), and 404 for every other URL |
| DetailedReceiver.SlashedPageNameNotFound | can_receiver_detailed_web.js:18-41 | `/index_detailed.html` gets 404, because the mapped path keeps its slash |
| WebReceiver.KeysAreUnpadded | can_receiver_web.js:80 | identifier 5 is keyed `0x5` and 0x123 is keyed `0x123` |
| WebReceiver.KeyCountIsIdCount | can_receiver_web.js:37 | the number of keys is the number of distinct identifiers received |
| WebReceiver.KeysOfSize | can_receiver_web.js:80 | distinct identifiers give as many distinct keys |
| WebReceiver.Receiver.constructor | can_receiver_web.js:12-13 | empty table and `uniqueIdCount` 0 |
| WebReceiver.Receiver.BroadcastUniqueIdCount | can_receiver_web.js:36-50 | `uniqueIdCount` becomes the number of keys, and that number is sent to every OPEN client; the counts sent never go down |
| WebReceiver.Receiver.RecordFrame | can_receiver_web.js:80-98 | `isNewId` holds exactly when the key was absent; the key gains one `{ data, dlc }` record with lower-case data; the key count grows by one exactly for a new key |
| WebReceiver.Receiver.OnMessage | can_receiver_web.js:79-104 | one `Append`; the count is broadcast exactly when the key is new, and it is then the new number of keys; the record of counts sent grows by that count only, so the class invariant keeps every count sent at most the current one and never decreasing |
| WebReceiver.Receiver.OnConnection | can_receiver_web.js:52-55 | the new client is sent the current number of keys |
| WebReceiver.Receiver.OnListening | can_receiver_web.js:107-114 | the current number of keys to every OPEN client, and the record of counts sent grows by exactly that count |
| WebReceiver.Receiver.SetReadyState | can_receiver_web.js:45 | a client's ready state changes and nothing else does |
| WebReceiver.HandleRequest | can_receiver_web.js:16-31 | `/` and `/index.html` get `index.html` as `text/html`, or 500 when the read fails; every other URL gets 404; never 403 |
| GeminiCan.Insert | gemini-can.js:93-96 | a key put into a sorted list keeps it sorted and adds exactly that key |
| GeminiCan.LowerBound | gemini-can.js:93-96 | the head of a sorted list bounds any rearrangement of its tail plus a larger key |
| GeminiCan.SortBy | gemini-can.js:93-96 | the sorted ids are ascending under the comparator's value and are a permutation of the keys, none lost or repeated |
| GeminiCan.SixteenValue | gemini-can.js:95 | `parseInt("0x10", 16)` is 16 |
| GeminiCan.NineValue | gemini-can.js:95 | `parseInt("0x9", 16)` is 9 |
| GeminiCan.KeyValue | gemini-can.js:95 | the comparator's value `parseInt(k, 16)` of a key; `GeminiCan.KeyValueOfKey` states that it is the identifier for every stored key |
| GeminiCan.NineBeforeSixteen | gemini-can.js:93-96 | the order is numeric: `0x9` comes before `0x10` |
| GeminiCan.KeyValueOfKey | gemini-can.js:95 | the comparator's value of a key is its identifier |
| GeminiCan.SortedKeysStrictlyAscend | gemini-can.js:89-96 | the store's keys come out strictly ascending by identifier |
| GeminiCan.DistinctCount | gemini-can.js:89 | a permutation of keys without repeats has no repeats |
| GeminiCan.DistinctOnce | gemini-can.js:89 | a key list without repeats holds each key at most once |
| GeminiCan.MessageLines | gemini-can.js:104-110 | one dump entry per message, the i-th numbered i+1, with the message's upper-case payload hex and its DLC |
| GeminiCan.DumpBlocks | gemini-can.js:101-103 | proof helper for the outer loop: the dump of one more identifier adds its `ID:` header followed by its messages |
| GeminiCan.CanLogger.constructor | gemini-can.js:6-10 | empty store; `storeReceivedMessages` fixed |
| GeminiCan.CanLogger.OnMessage | gemini-can.js:51-66 | with storing on, the key gains one `{ data, dlc, ext, rtr }` at the end of its list and no other key changes; with storing off, nothing changes |
| GeminiCan.CanLogger.KeysAreIdentifiers | gemini-can.js:89 | the keys are formatted identifiers, each once, and the sorted ids are exactly the store's keys |
| GeminiCan.CanLogger.DumpMessages | gemini-can.js:104-110 | the inner loop writes exactly `MessageLines` of the identifier's messages |
| GeminiCan.CanLogger.SortedKeysStored | gemini-can.js:101-103 | every sorted id is a key of the store |
| GeminiCan.CanLogger.EmptyStoreDump | gemini-can.js:98-99 | with storing on and nothing stored, the dump is the banner and the single "no messages" line |
| GeminiCan.CanLogger.DumpIds | gemini-can.js:101-111 | the outer loop writes every sorted id's block in sorted order |
| GeminiCan.CanLogger.Shutdown | gemini-can.js:79-113 | the stopping line; then, only when storing, the banner and the dump of the keys in numeric order, or the "no messages" line when there are none |

## Left out

- The socketcan channel (creation, `start`, `stop`, `addListener`) is a native binding; frames are method arguments.
- Timestamps (`ts_sec`, `ts_usec`, `parseFloat`, `Date.now`) are floating point and are used neither for counting nor for ordering. The timestamp fields of stored records and the dump's `Timestamp:` line are not modelled.
- `path.join(__dirname, filePath)` is Node's path normalisation and is not modelled. The joined path is an input to `HandleRequest`, and the `indexOf(__dirname) === 0` test is a prefix test on it.
- `fs.readFile` is I/O; its success or failure is the `readOk` input.
- `http.createServer`, `server.listen`, the `ws` server, `JSON.stringify` and the sockets are not modelled. Messages are a datatype and clients are a sequence. The library's own adding and removal of sockets is not modelled; `SetReadyState` stands for a socket changing state.
- Console logging is left out, except for the shutdown dump of gemini-can.js. That includes the per-frame log of gemini-can.js and the connection and error logs.
- The process lifecycle is left out: the SIGINT/SIGTERM handlers and the shutdown of the receivers' servers, with their `client.close()`, the 5-second timeout, `process.exit` and the keep-alive `setInterval`.
- The upper-case `messageDataHex` of can_receiver_web.js, detailed and gemini `onMessage` is computed but never stored or sent. It is not modelled.
- GeminiCan.KeyValue: `parseInt` yielding `NaN` is mapped to -1. No key of the store is affected (`CanLogger.KeysAreIdentifiers`), so the comparator never sees `NaN`.
- Hex.ParseInt16: leading white space and a sign are not modelled, because formatted keys have neither.
- GeminiCan.SortBy: it is a stable insertion sort. Since ECMAScript 2019, `Array.prototype.sort` must be stable, so for a consistent comparator a stable sort gives exactly the order JavaScript requires. For the store's keys the comparator values are also distinct, so the sorted order is unique whatever the stability (`SortedKeysStrictlyAscend`).
- app.js, canctrl.js, public/script.js and can-control.js are not part of this model. They are a static-file server, a demo server, browser UI code and browser rendering.
