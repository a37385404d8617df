/** The count tables of all four receivers, specified by the frames they have
    received: each receiver files a frame under a key computed from the frame and
    pushes a record computed from the frame onto that key's list. */
module FrameTable {
  import opened CanFrame
  import opened KeyedLists

  /** What a counting receiver pushes per frame: the object `{ timestamp }`,
      whose floating-point value is not modelled. */
  datatype Stamp = Stamp

  /** The frames among `frames` filed under `k`, in arrival order. */
  function Under(frames: seq<Frame>, key: Frame -> string, k: string): (u: seq<Frame>)
    ensures |u| <= |frames|
    ensures forall g :: g in u <==> g in frames && key(g) == k
  {
    if frames == [] then []
    else
      var f := frames[|frames| - 1];
      Under(frames[..|frames| - 1], key, k) + (if key(f) == k then [f] else [])
  }

  /** The record of each frame of `frames`, in the same order. */
  function Records<E>(frames: seq<Frame>, record: Frame -> E): (r: seq<E>)
    ensures |r| == |frames|
    ensures forall i :: 0 <= i < |frames| ==> r[i] == record(frames[i])
  {
    if frames == [] then []
    else Records(frames[..|frames| - 1], record) + [record(frames[|frames| - 1])]
  }

  /** The table after `frames`, each appended in turn. */
  function TableOf<E>(frames: seq<Frame>, key: Frame -> string, record: Frame -> E): map<string, seq<E>> {
    if frames == [] then map[]
    else
      var f := frames[|frames| - 1];
      Append(TableOf(frames[..|frames| - 1], key, record), key(f), record(f))
  }

  /** The table's key order after `frames`: keys in order of first arrival. */
  function KeyOrderOf(frames: seq<Frame>, key: Frame -> string): seq<string> {
    if frames == [] then []
    else AddKey(KeyOrderOf(frames[..|frames| - 1], key), key(frames[|frames| - 1]))
  }

  /** One more frame is one more `Append`. */
  lemma TableStep<E>(frames: seq<Frame>, f: Frame, key: Frame -> string, record: Frame -> E)
    ensures TableOf(frames + [f], key, record) == Append(TableOf(frames, key, record), key(f), record(f))
    ensures KeyOrderOf(frames + [f], key) == AddKey(KeyOrderOf(frames, key), key(f))
  {
    assert (frames + [f])[..|frames|] == frames;
  }

  /** The key order lists the table's keys, each once. */
  lemma {:induction false} TableKeysOrdered<E>(frames: seq<Frame>, key: Frame -> string, record: Frame -> E)
    ensures OrderedKeys(KeyOrderOf(frames, key), TableOf(frames, key, record))
  {
    if frames != [] {
      var init := frames[..|frames| - 1];
      var f := frames[|frames| - 1];
      TableKeysOrdered(init, key, record);
      AppendKeepsOrder(KeyOrderOf(init, key), TableOf(init, key, record), key(f), record(f));
    }
  }

  /** A key is in the table exactly when some frame was filed under it, and its
      list holds the records of those frames, one each, in arrival order. */
  lemma {:induction false} TableLists<E>(frames: seq<Frame>, key: Frame -> string, record: Frame -> E, k: string)
    ensures k in TableOf(frames, key, record) <==> Under(frames, key, k) != []
    ensures k in TableOf(frames, key, record) ==>
              TableOf(frames, key, record)[k] == Records(Under(frames, key, k), record)
  {
    if frames != [] {
      var init := frames[..|frames| - 1];
      var f := frames[|frames| - 1];
      var u := Under(init, key, k);
      TableLists(init, key, record, k);
      if key(f) == k {
        assert Under(frames, key, k) == u + [f];
        assert (u + [f])[..|u|] == u;
      }
    }
  }

  /** A receiver's key order and table are the ones `frames` build. */
  ghost predicate Tracks<E>(order: seq<string>, table: map<string, seq<E>>, frames: seq<Frame>,
                            key: Frame -> string, record: Frame -> E) {
    order == KeyOrderOf(frames, key) && table == TableOf(frames, key, record)
  }

  /** The counts view of a tracked table: a key is present exactly when some
      frame was filed under it, with the number of those frames. */
  lemma CountsCountFrames<E>(frames: seq<Frame>, key: Frame -> string, record: Frame -> E, k: string)
    ensures var stats := Counts(TableOf(frames, key, record));
      && (k in stats <==> exists f :: f in frames && key(f) == k)
      && (k in stats ==> stats[k] == |Under(frames, key, k)|)
  {
    TableLists(frames, key, record, k);
    var u := Under(frames, key, k);
    if u != [] {
      assert u[0] in u;
    }
  }
}
