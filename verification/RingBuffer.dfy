/**
 The byte ring buffer behind a TCP socket: storage, read index and length exactly as stored.
 `Data` is the queue it stands for, `Free` the writable region behind the queue.
 */
module RingBuffer {
  import opened Common

  datatype Ring = Ring(storage: seq<Byte>, readAt: nat, length: nat)
  {
    function Capacity(): nat {
      |storage|
    }

    predicate Valid() {
      && length <= |storage|
      && (if |storage| == 0 then readAt == 0 else readAt < |storage|)
    }

    function Window(): nat
      requires Valid()
    {
      |storage| - length
    }

    /** `get_idx` for indices that do not wrap more than once. */
    function Idx(i: nat): (j: nat)
      requires Valid() && i <= |storage|
      ensures j <= |storage|
      ensures |storage| > 0 ==> j < |storage|
    {
      if |storage| == 0 then 0
      else if readAt + i >= |storage| then readAt + i - |storage| else readAt + i
    }

    /** The storage read from the read index round to it again. */
    function Rotated(): (r: seq<Byte>)
      requires Valid()
      ensures |r| == |storage|
    {
      storage[readAt..] + storage[..readAt]
    }

    function Data(): (d: seq<Byte>)
      requires Valid()
      ensures |d| == length
    {
      Rotated()[..length]
    }

    function Free(): (f: seq<Byte>)
      requires Valid()
      ensures |f| == Window()
    {
      Rotated()[length..]
    }

    function Clear(): Ring {
      Ring(storage, 0, 0)
    }
  }

  /** One `enqueue_many_with` that copies as much of `data` as fits without wrapping. */
  function EnqueueContiguous(r: Ring, data: seq<Byte>): (res: (Ring, nat))
    requires r.Valid()
    ensures res.0.Valid() && res.1 <= |data|
    ensures |res.0.storage| == |r.storage| && res.0.length == r.length + res.1
  {
    var r1 := if r.length == 0 then r.(readAt := 0) else r;
    var writeAt := r1.Idx(r1.length);
    var maxSize := MinOf(r1.Window(), |r1.storage| - writeAt);
    var size := MinOf(maxSize, |data|);
    (Ring(Splice(r1.storage, writeAt, data[..size]), r1.readAt, r1.length + size), size)
  }

  /** `enqueue_slice`: two contiguous copies. */
  function EnqueueSlice(r: Ring, data: seq<Byte>): (res: (Ring, nat))
    requires r.Valid()
    ensures res.0.Valid() && res.1 <= |data|
    ensures |res.0.storage| == |r.storage| && res.0.length == r.length + res.1
  {
    var (r1, n1) := EnqueueContiguous(r, data);
    var (r2, n2) := EnqueueContiguous(r1, data[n1..]);
    (r2, n1 + n2)
  }

  /** `dequeue_allocated`: drop from the front; `dequeue_slice` drops the same way. */
  function Dequeue(r: Ring, count: nat): (r': Ring)
    requires r.Valid() && count <= r.length
    ensures r'.Valid() && r'.storage == r.storage && r'.length == r.length - count
  {
    Ring(r.storage, r.Idx(count), r.length - count)
  }

  /** The slice `get_allocated` returns: cut at the queue end and at the end of the storage. */
  function GetAllocated(r: Ring, offset: nat, size: nat): (s: seq<Byte>)
    requires r.Valid()
  {
    if offset > r.length then []
    else
      var startAt := r.Idx(offset);
      var n := MinOf(MinOf(size, r.length - offset), |r.storage| - startAt);
      r.storage[startAt..startAt + n]
  }

  /** One half of `write_unallocated`, through `get_unallocated`. */
  function WriteContiguous(r: Ring, offset: nat, data: seq<Byte>): (res: (Ring, nat))
    requires r.Valid()
    ensures res.0.Valid() && res.1 <= |data| && |res.0.storage| == |r.storage|
    ensures res.0.length == r.length && res.0.readAt == r.readAt
  {
    if offset > r.Window() then (r, 0)
    else
      var startAt := r.Idx(r.length + offset);
      var n := MinOf(MinOf(|data|, r.Window() - offset), |r.storage| - startAt);
      (r.(storage := Splice(r.storage, startAt, data[..n])), n)
  }

  function WriteUnallocated(r: Ring, offset: nat, data: seq<Byte>): (res: (Ring, nat))
    requires r.Valid()
    ensures res.0.Valid() && res.1 <= |data| && |res.0.storage| == |r.storage|
    ensures res.0.length == r.length && res.0.readAt == r.readAt
  {
    var (r1, n1) := WriteContiguous(r, offset, data);
    var (r2, n2) := WriteContiguous(r1, offset + n1, data[n1..]);
    (r2, n1 + n2)
  }

  function EnqueueUnallocated(r: Ring, count: nat): (r': Ring)
    requires r.Valid() && count <= r.Window()
    ensures r'.Valid() && r'.storage == r.storage && r'.length == r.length + count
  {
    r.(length := r.length + count)
  }

  // ---- the ring refines a queue with a writable region behind it ----

  lemma RotatedAt(r: Ring, i: nat)
    requires r.Valid() && i < |r.storage|
    ensures r.Rotated()[i] == r.storage[r.Idx(i)]
  {
  }

  lemma SpliceAt(s: seq<Byte>, at: nat, data: seq<Byte>, i: nat)
    requires at + |data| <= |s| && i < |s|
    ensures Splice(s, at, data)[i] == if at <= i < at + |data| then data[i - at] else s[i]
  {
  }

  /** A range that does not wrap keeps its shape. */
  lemma IdxInside(r: Ring, at: nat, size: nat, i: nat)
    requires r.Valid() && at + size <= |r.storage| && r.Idx(at) + size <= |r.storage| && i < |r.storage|
    ensures at <= i < at + size <==> r.Idx(at) <= r.Idx(i) < r.Idx(at) + size
    ensures at <= i < at + size ==> r.Idx(i) - r.Idx(at) == i - at
  {
  }

  /** A physical copy that does not wrap is a copy at the same logical index. */
  lemma SpliceRotated(r: Ring, at: nat, data: seq<Byte>)
    requires r.Valid() && at + |data| <= |r.storage|
    requires r.Idx(at) + |data| <= |r.storage|
    ensures r.(storage := Splice(r.storage, r.Idx(at), data)).Rotated() == Splice(r.Rotated(), at, data)
  {
    hide Splice, Ring.Rotated;
    var r' := r.(storage := Splice(r.storage, r.Idx(at), data));
    var want := Splice(r.Rotated(), at, data);
    forall i | 0 <= i < |r.storage|
      ensures r'.Rotated()[i] == want[i]
    {
      RotatedAt(r, i);
      RotatedAt(r', i);
      IdxInside(r, at, |data|, i);
      SpliceAt(r.storage, r.Idx(at), data, r.Idx(i));
      SpliceAt(r.Rotated(), at, data, i);
    }
  }

  lemma RotatedSame(r: Ring, length: nat)
    requires r.Valid() && length <= |r.storage|
    ensures r.(length := length).Rotated() == r.Rotated()
  {
  }

  lemma TakeTake(s: seq<Byte>, a: nat, b: nat)
    requires a + b <= |s|
    ensures s[..a] + s[a..][..b] == s[..a + b]
  {
    assert s[a..][..b] == s[a..a + b];
  }

  lemma SpliceAtEnd(s: seq<Byte>, at: nat, data: seq<Byte>)
    requires at + |data| <= |s|
    ensures Splice(s, at, data)[..at + |data|] == s[..at] + data
  {
  }

  lemma SpliceBehind(s: seq<Byte>, length: nat, at: nat, data: seq<Byte>)
    requires length + at + |data| <= |s|
    ensures Splice(s, length + at, data)[..length] == s[..length]
    ensures Splice(s, length + at, data)[length..] == Splice(s[length..], at, data)
  {
  }

  lemma SpliceTwice(s: seq<Byte>, at: nat, data: seq<Byte>, n: nat)
    requires at + |data| <= |s| && n <= |data|
    ensures Splice(Splice(s, at, data[..n]), at + n, data[n..]) == Splice(s, at, data)
  {
  }

  /** Room left over after a contiguous copy starts at the beginning of the storage. */
  lemma EnqueueContiguousAppends(r: Ring, data: seq<Byte>)
    requires r.Valid()
    ensures var (r', n) := EnqueueContiguous(r, data);
      && r'.Data() == r.Data() + data[..n]
      && (n < |data| ==> r'.Window() == 0 || (r'.length > 0 && r'.Idx(r'.length) == 0))
  {
    hide Splice, Ring.Rotated;
    var (r', n) := EnqueueContiguous(r, data);
    var r1 := if r.length == 0 then r.(readAt := 0) else r;
    assert r1.Data() == r.Data();
    SpliceRotated(r1, r1.length, data[..n]);
    SpliceAtEnd(r1.Rotated(), r1.length, data[..n]);
    RotatedSame(r1.(storage := r'.storage), r'.length);
  }

  /** A ring whose free space starts at the front of the storage takes all it has room for. */
  lemma EnqueueContiguousRest(r: Ring, data: seq<Byte>)
    requires r.Valid() && (data == [] || r.Window() == 0 || (r.length > 0 && r.Idx(r.length) == 0))
    ensures EnqueueContiguous(r, data).1 == MinOf(r.Window(), |data|)
  {
  }

  /** `enqueue_slice` appends exactly as much as there is room for. */
  lemma EnqueueSliceAppends(r: Ring, data: seq<Byte>)
    requires r.Valid()
    ensures var (r', n) := EnqueueSlice(r, data);
      && n == MinOf(r.Window(), |data|)
      && r'.Data() == r.Data() + data[..n]
  {
    hide EnqueueContiguous, Ring.Data;
    var (r1, n1) := EnqueueContiguous(r, data);
    EnqueueContiguousAppends(r, data);
    EnqueueContiguousAppends(r1, data[n1..]);
    var (r2, n2) := EnqueueContiguous(r1, data[n1..]);
    EnqueueContiguousRest(r1, data[n1..]);
    TakeTake(data, n1, n2);
    assert r2.Data() == r.Data() + (data[..n1] + data[n1..][..n2]);
  }

  /** Advancing the read index rotates the view. */
  lemma DequeueRotates(r: Ring, count: nat)
    requires r.Valid() && count <= r.length
    ensures Dequeue(r, count).Rotated() == r.Rotated()[count..] + r.Rotated()[..count]
  {
    var n := |r.storage|;
    if r.readAt + count < n {
      assert r.Rotated()[..count] == r.storage[r.readAt..r.readAt + count];
    } else {
      assert r.Rotated()[count..] == r.storage[r.readAt + count - n..r.readAt];
    }
  }

  /** Dequeuing moves the bytes dropped from the front of the queue to the end of the free region. */
  lemma DequeueDrops(r: Ring, count: nat)
    requires r.Valid() && count <= r.length
    ensures Dequeue(r, count).Data() == r.Data()[count..]
    ensures Dequeue(r, count).Free() == r.Free() + r.Data()[..count]
  {
    DequeueRotates(r, count);
    var whole := r.Rotated();
    assert (whole[count..] + whole[..count])[..r.length - count] == whole[count..r.length];
    assert (whole[count..] + whole[..count])[r.length - count..] == whole[r.length..] + whole[..count];
  }

  /** A nonempty request inside the queue yields a nonempty prefix of it; any other yields nothing. */
  lemma GetAllocatedIsPrefix(r: Ring, offset: nat, size: nat)
    requires r.Valid()
    ensures var s := GetAllocated(r, offset, size);
      && |s| <= size
      && (offset >= r.length ==> s == [])
      && (offset < r.length && size > 0 ==> s != [])
      && (offset <= r.length ==> offset + |s| <= r.length && s == r.Data()[offset..offset + |s|])
  {
    var s := GetAllocated(r, offset, size);
    if offset <= r.length {
      forall i | 0 <= i < |s|
        ensures s[i] == r.Data()[offset + i]
      {
        RotatedAt(r, offset + i);
      }
    }
  }

  lemma WriteContiguousWrites(r: Ring, offset: nat, data: seq<Byte>)
    requires r.Valid() && offset + |data| <= r.Window()
    ensures var (r', n) := WriteContiguous(r, offset, data);
      && r'.Data() == r.Data()
      && r'.Free() == Splice(r.Free(), offset, data[..n])
      && (n < |data| ==> r.Idx(r.length + offset + n) == 0)
      && (r.Idx(r.length + offset) == 0 ==> n == |data|)
  {
    hide Splice, Ring.Rotated;
    var (r', n) := WriteContiguous(r, offset, data);
    SpliceRotated(r, r.length + offset, data[..n]);
    SpliceBehind(r.Rotated(), r.length, offset, data[..n]);
  }

  /** A write that fits the free region lands there whole and leaves the queue alone. */
  lemma WriteUnallocatedWrites(r: Ring, offset: nat, data: seq<Byte>)
    requires r.Valid() && offset + |data| <= r.Window()
    ensures var (r', n) := WriteUnallocated(r, offset, data);
      && n == |data|
      && r'.Data() == r.Data()
      && r'.Free() == Splice(r.Free(), offset, data)
  {
    hide Splice, Ring.Data, Ring.Free, WriteContiguous;
    var (r1, n1) := WriteContiguous(r, offset, data);
    WriteContiguousWrites(r, offset, data);
    var rest := data[n1..];
    var (r2, n2) := WriteContiguous(r1, offset + n1, rest);
    WriteContiguousWrites(r1, offset + n1, rest);
    assert n2 == |rest|;
    assert rest[..n2] == rest;
    SpliceTwice(r.Free(), offset, data, n1);
  }

  lemma EnqueueUnallocatedTakes(r: Ring, count: nat)
    requires r.Valid() && count <= r.Window()
    ensures EnqueueUnallocated(r, count).Data() == r.Data() + r.Free()[..count]
    ensures EnqueueUnallocated(r, count).Free() == r.Free()[count..]
  {
    var r' := EnqueueUnallocated(r, count);
    assert r'.Rotated() == r.Rotated();
  }
}
