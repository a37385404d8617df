/** gemini-can.js: a console logger that, when `storeReceivedMessages` is set,
    keeps every frame under its unpadded identifier key and, at shutdown, dumps
    the stored frames identifier by identifier in ascending numeric order. */
module GeminiCan {
  import opened CanFrame
  import opened Hex
  import opened KeyedLists
  import opened FrameTable

  /** `messageIdHex`: upper-case hex with no padding. */
  function MessageIdHex(id: nat): string {
    IdKey(id, 0)
  }

  /** The stored message `{ data, dlc, ext, rtr, timestamp }`; the
      floating-point timestamp is not modelled. */
  datatype StoredMessage = StoredMessage(data: seq<byte>, dlc: nat, ext: bool, rtr: bool)

  function FrameKey(f: Frame): string {
    MessageIdHex(f.id)
  }

  function StoredOf(f: Frame): StoredMessage {
    StoredMessage(f.data, f.dlc, f.ext, f.rtr)
  }

  // ----- The comparator `parseInt(a, 16) - parseInt(b, 16)` and the sort -----

  /** `parseInt(k, 16)`; -1 stands in for `NaN`, which no key of the store
      yields (`CanLogger.KeysAreIdentifiers`). */
  function KeyValue(k: string): int {
    match ParseInt16(k)
    case Some(v) => v
    case None => -1
  }

  /** Ascending by `value`. */
  predicate SortedBy(keys: seq<string>, value: string -> int) {
    forall i, j :: 0 <= i < j < |keys| ==> value(keys[i]) <= value(keys[j])
  }

  /** `k` placed into the sorted `sorted` after every key whose value is not
      larger, as a stable sort places a later element. */
  function Insert(k: string, sorted: seq<string>, value: string -> int): (r: seq<string>)
    requires SortedBy(sorted, value)
    ensures multiset(r) == multiset(sorted) + multiset{k}
    ensures SortedBy(r, value)
  {
    if sorted == [] then [k]
    else if value(k) < value(sorted[0]) then
      assert forall j :: 0 <= j < |sorted| ==> value(sorted[0]) <= value(sorted[j]);
      [k] + sorted
    else
      var rest := Insert(k, sorted[1..], value);
      assert sorted == [sorted[0]] + sorted[1..];
      LowerBound(sorted[0], k, sorted[1..], rest, value);
      [sorted[0]] + rest
  }

  /** The head of a sorted sequence is a lower bound for any rearrangement of
      its tail with a larger key added. */
  lemma LowerBound(x: string, k: string, tail: seq<string>, rest: seq<string>, value: string -> int)
    requires SortedBy([x] + tail, value) && value(x) <= value(k)
    requires multiset(rest) == multiset(tail) + multiset{k}
    ensures forall j :: 0 <= j < |rest| ==> value(x) <= value(rest[j])
  {
    forall j | 0 <= j < |rest| ensures value(x) <= value(rest[j]) {
      assert rest[j] in multiset(rest);
      if rest[j] != k {
        assert rest[j] in tail;
        var t :| 0 <= t < |tail| && tail[t] == rest[j];
        assert ([x] + tail)[0] == x && ([x] + tail)[t + 1] == tail[t];
        assert value(([x] + tail)[0]) <= value(([x] + tail)[t + 1]);
      }
    }
  }

  /** `Array.prototype.sort` with a comparator on `value`: the keys in
      ascending order, none lost and none repeated. */
  function SortBy(keys: seq<string>, value: string -> int): (r: seq<string>)
    ensures multiset(r) == multiset(keys)
    ensures SortedBy(r, value)
  {
    if keys == [] then []
    else
      var init := keys[..|keys| - 1];
      assert keys == init + [keys[|keys| - 1]];
      Insert(keys[|keys| - 1], SortBy(init, value), value)
  }

  /** `0x10` reads as 16. */
  lemma SixteenValue()
    ensures KeyValue("0x10") == 16
  {
    KeyValueOfKey(16);
    assert NatHex(16, true) == NatHex(1, true) + [Digit(0, true)];
    assert MessageIdHex(16) == "0x10";
  }

  /** `0x9` reads as 9. */
  lemma NineValue()
    ensures KeyValue("0x9") == 9
  {
    KeyValueOfKey(9);
    assert MessageIdHex(9) == "0x9";
  }

  /** The order is numeric, not by characters: `0x9` comes before `0x10`. */
  lemma NineBeforeSixteen()
    ensures SortBy(["0x10", "0x9"], KeyValue) == ["0x9", "0x10"]
  {
    assert SortBy(["0x10"], KeyValue) == ["0x10"] by {
      assert ["0x10"][..0] == [];
    }
    assert ["0x10", "0x9"][..1] == ["0x10"];
    assert SortBy(["0x10", "0x9"], KeyValue) == Insert("0x9", ["0x10"], KeyValue);
    SixteenValue();
    NineValue();
  }

  /** Every formatted key reads back as its identifier. */
  lemma KeyValueOfKey(id: nat)
    ensures KeyValue(MessageIdHex(id)) == id
  {
    IdKeyParses(id, 0);
  }

  /** `k` is the key of some identifier. */
  ghost predicate IsKey(k: string) {
    exists id: nat :: k == MessageIdHex(id)
  }

  /** Keys of distinct identifiers come out strictly ascending. */
  lemma SortedKeysStrictlyAscend(keys: seq<string>)
    requires Distinct(keys)
    requires forall k :: k in keys ==> IsKey(k)
    ensures var r := SortBy(keys, KeyValue);
      forall i, j :: 0 <= i < j < |r| ==> KeyValue(r[i]) < KeyValue(r[j])
  {
    var r := SortBy(keys, KeyValue);
    forall i, j | 0 <= i < j < |r| ensures KeyValue(r[i]) < KeyValue(r[j]) {
      DistinctCount(keys, r, i, j);
      assert r[i] in multiset(keys) && r[j] in multiset(keys);
      assert IsKey(r[i]) && IsKey(r[j]);
      var a: nat :| r[i] == MessageIdHex(a);
      var b: nat :| r[j] == MessageIdHex(b);
      KeyValueOfKey(a);
      KeyValueOfKey(b);
    }
  }

  /** A key occurs once in a sequence without repeats, so a permutation of it
      cannot hold the same key at two positions. */
  lemma DistinctCount(keys: seq<string>, r: seq<string>, i: nat, j: nat)
    requires Distinct(keys) && multiset(r) == multiset(keys)
    requires i < j < |r|
    ensures r[i] != r[j]
  {
    if r[i] == r[j] {
      var k := r[i];
      assert multiset(r)[k] >= 2 by {
        assert r == r[..i] + [k] + r[i + 1..j] + [k] + r[j + 1..];
      }
      DistinctOnce(keys, k);
      assert false;
    }
  }

  lemma {:induction false} DistinctOnce(keys: seq<string>, k: string)
    requires Distinct(keys)
    ensures multiset(keys)[k] <= 1
  {
    if keys != [] {
      var init := keys[..|keys| - 1];
      assert keys == init + [keys[|keys| - 1]];
      assert Distinct(init);
      DistinctOnce(init, k);
      if keys[|keys| - 1] == k {
        assert k !in init;
      }
    }
  }

  // ----- The dump -----

  /** One line, or group of lines, of the shutdown output. */
  datatype DumpLine =
    | Stopping                                             // "Stopping CAN listener..."
    | Banner                                               // "--- All Received CAN Messages (Organized by ID) ---"
    | NoMessages                                           // "No messages were received and stored."
    | IdHeader(id: string)                                 // "ID: <id>"
    | MessageDump(number: nat, dataHex: string, dlc: nat)  // "Message <n>:", "Data: …", "DLC: …"

  /** The lines for one identifier's messages: numbered from 1 in arrival
      order, each with its upper-case payload hex and its DLC. */
  function MessageLines(msgs: seq<StoredMessage>): (r: seq<DumpLine>)
    ensures |r| == |msgs|
    ensures forall i :: 0 <= i < |msgs| ==>
              r[i] == MessageDump(i + 1, BytesHex(msgs[i].data, true), msgs[i].dlc)
  {
    if msgs == [] then []
    else
      var n := |msgs| - 1;
      MessageLines(msgs[..n]) + [MessageDump(n + 1, BytesHex(msgs[n].data, true), msgs[n].dlc)]
  }

  /** The header and message lines of every key of `ids`, in that order. */
  function DumpOf(ids: seq<string>, table: map<string, seq<StoredMessage>>): seq<DumpLine>
    requires forall k :: k in ids ==> k in table
  {
    if ids == [] then []
    else
      var n := |ids| - 1;
      DumpOf(ids[..n], table) + [IdHeader(ids[n])] + MessageLines(table[ids[n]])
  }

  /** What `shutdown` writes, given the sorted keys. */
  function ShutdownLines(store: bool, sortedIds: seq<string>, table: map<string, seq<StoredMessage>>): seq<DumpLine>
    requires forall k :: k in sortedIds ==> k in table
  {
    [Stopping] +
    if !store then []
    else [Banner] + if |sortedIds| == 0 then [NoMessages] else DumpOf(sortedIds, table)
  }

  /** Each identifier's block is its header followed by its messages. */
  lemma DumpBlocks(ids: seq<string>, table: map<string, seq<StoredMessage>>, k: nat)
    requires forall x :: x in ids ==> x in table
    requires k < |ids|
    ensures DumpOf(ids[..k + 1], table) == DumpOf(ids[..k], table) + [IdHeader(ids[k])] + MessageLines(table[ids[k]])
  {
    assert ids[..k + 1][..k] == ids[..k];
  }

  // ----- The logger -----

  class CanLogger {
    /** `storeReceivedMessages`, fixed for the life of the program. */
    const storeReceivedMessages: bool
    /** `Object.keys(receivedCanMessages)`, in creation order. */
    var order: seq<string>
    var receivedCanMessages: map<string, seq<StoredMessage>>
    /** The frames stored so far, oldest first. */
    ghost var stored: seq<Frame>

    /** The store is the one the stored frames build, and nothing is stored
        when storing is off. */
    ghost predicate Valid()
      reads this`order, this`receivedCanMessages, this`stored
    {
      && Tracks(order, receivedCanMessages, stored, FrameKey, StoredOf)
      && (!storeReceivedMessages ==> stored == [])
    }

    constructor (store: bool)
      ensures Valid()
      ensures storeReceivedMessages == store && receivedCanMessages == map[] && stored == []
    {
      storeReceivedMessages := store;
      order, receivedCanMessages := [], map[];
      stored := [];
    }

    /** The `onMessage` listener: with storing on, the frame's key gains exactly
        one stored message at the end of its list (the list created first when
        the key is new) and no other key changes; with storing off, nothing
        changes. */
    method OnMessage(f: Frame)
      requires Valid()
      modifies this`order, this`receivedCanMessages, this`stored
      ensures Valid()
      ensures storeReceivedMessages ==>
        stored == old(stored) + [f] &&
        receivedCanMessages == Append(old(receivedCanMessages), MessageIdHex(f.id), StoredOf(f))
      ensures !storeReceivedMessages ==>
        stored == old(stored) && receivedCanMessages == old(receivedCanMessages) && order == old(order)
    {
      var messageIdHex := MessageIdHex(f.id);
      if storeReceivedMessages {
        TableKeysOrdered(stored, FrameKey, StoredOf);
        PushStep(order, receivedCanMessages, messageIdHex, StoredOf(f));
        if messageIdHex !in receivedCanMessages {
          receivedCanMessages := receivedCanMessages[messageIdHex := []];
          order := order + [messageIdHex];
        }
        var storedMessage := StoredMessage(f.data, f.dlc, f.ext, f.rtr);
        receivedCanMessages := receivedCanMessages[messageIdHex := receivedCanMessages[messageIdHex] + [storedMessage]];
        TableStep(stored, f, FrameKey, StoredOf);
        stored := stored + [f];
      }
    }

    /** Every key of the store is a formatted identifier, present once, and
        the sorted keys are exactly the keys of the store. */
    lemma KeysAreIdentifiers()
      requires Valid()
      ensures Distinct(order)
      ensures forall k :: k in order ==> IsKey(k)
      ensures forall k :: k in SortBy(order, KeyValue) <==> k in receivedCanMessages
      ensures |SortBy(order, KeyValue)| == |receivedCanMessages.Keys|
    {
      TableKeysOrdered(stored, FrameKey, StoredOf);
      KeyCount(order, receivedCanMessages);
      forall k | k in order ensures IsKey(k) {
        CountsCountFrames(stored, FrameKey, StoredOf, k);
        var f :| f in stored && FrameKey(f) == k;
      }
      var sorted := SortBy(order, KeyValue);
      forall k ensures k in sorted <==> k in order {
        assert k in sorted <==> k in multiset(sorted);
      }
      assert |sorted| == |multiset(sorted)| == |order|;
    }

    /** The inner `forEach` of `shutdown`: one identifier's messages. */
    static method DumpMessages(messagesForId: seq<StoredMessage>) returns (out: seq<DumpLine>)
      ensures out == MessageLines(messagesForId)
    {
      out := [];
      var index := 0;
      while index < |messagesForId|
        invariant 0 <= index <= |messagesForId|
        invariant out == MessageLines(messagesForId[..index])
      {
        var msgEntry := messagesForId[index];
        assert messagesForId[..index + 1][..index] == messagesForId[..index];
        out := out + [MessageDump(index + 1, BytesHex(msgEntry.data, true), msgEntry.dlc)];
        index := index + 1;
      }
      assert messagesForId[..index] == messagesForId;
    }

    /** The sorted keys are all keys of the store. */
    lemma SortedKeysStored()
      requires Valid()
      ensures forall k :: k in SortBy(order, KeyValue) ==> k in receivedCanMessages
    {
      KeysAreIdentifiers();
    }

    /** With storing on and nothing stored, `shutdown` writes the banner and
        the one "no messages" line. */
    lemma EmptyStoreDump()
      requires Valid() && storeReceivedMessages && receivedCanMessages == map[]
      ensures forall k :: k in SortBy(order, KeyValue) ==> k in receivedCanMessages
      ensures ShutdownLines(storeReceivedMessages, SortBy(order, KeyValue), receivedCanMessages)
              == [Stopping, Banner, NoMessages]
    {
      KeysAreIdentifiers();
    }

    /** The outer `forEach` of `shutdown`: every identifier of `messageIds`
        in turn, its header and then its messages. */
    static method DumpIds(messageIds: seq<string>, table: map<string, seq<StoredMessage>>) returns (out: seq<DumpLine>)
      requires forall k :: k in messageIds ==> k in table
      ensures out == DumpOf(messageIds, table)
    {
      out := [];
      var i := 0;
      while i < |messageIds|
        invariant 0 <= i <= |messageIds|
        invariant out == DumpOf(messageIds[..i], table)
      {
        var id := messageIds[i];
        var block := DumpMessages(table[id]);
        out := out + [IdHeader(id)] + block;
        DumpBlocks(messageIds, table, i);
        i := i + 1;
      }
      assert messageIds[..i] == messageIds;
    }

    /** `shutdown`: the keys sorted by numeric value, then, for each key in that
        order, its header and its messages in arrival order; only the
        stopping line when storing is off, and the "no messages" line when
        nothing was stored. */
    method Shutdown() returns (lines: seq<DumpLine>)
      requires Valid()
      ensures forall k :: k in SortBy(order, KeyValue) ==> k in receivedCanMessages
      ensures lines == ShutdownLines(storeReceivedMessages, SortBy(order, KeyValue), receivedCanMessages)
      ensures !storeReceivedMessages ==> lines == [Stopping]
    {
      SortedKeysStored();
      var messageIds := SortBy(order, KeyValue);
      lines := [Stopping];
      if storeReceivedMessages {
        lines := lines + [Banner];
        if |messageIds| == 0 {
          lines := lines + [NoMessages];
        } else {
          var dump := DumpIds(messageIds, receivedCanMessages);
          lines := lines + dump;
        }
      }
    }
  }
}
