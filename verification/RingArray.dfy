/**
 The ring buffer as it is stored: a byte array written in place, a read index and a length. Every method is
 proved to do what the function of the same name does to the value.
 */
module RingArray {
  import opened Common
  import R = RingBuffer

  /** A remainder of something less than twice the divisor takes one subtraction. */
  lemma OnceAround(x: nat, n: nat)
    requires 0 < n && x < 2 * n
    ensures x % n == if x < n then x else x - n
  {
    var q := x / n;
    assert x == q * n + x % n;
    assert q >= 2 ==> q * n >= 2 * n;
    assert q == 0 || q == 1;
  }

  class RingStorage {
    const storage: array<Byte>
    var readAt: nat
    var length: nat

    function View(): R.Ring
      reads this, storage
    {
      R.Ring(storage[..], readAt, length)
    }

    ghost predicate Valid()
      reads this, storage
    {
      View().Valid()
    }

    constructor (capacity: nat)
      ensures Valid() && fresh(storage) && storage.Length == capacity && length == 0
    {
      storage := new Byte[capacity](_ => 0);
      readAt, length := 0, 0;
    }

    method Clear()
      requires Valid()
      modifies this
      ensures Valid() && View() == old(View().Clear())
    {
      readAt := 0;
      length := 0;
    }

    function Window(): nat
      requires Valid()
      reads this, storage
    {
      storage.Length - length
    }

    function GetIdx(i: nat): (j: nat)
      requires Valid() && i <= storage.Length
      reads this, storage
      ensures j == View().Idx(i)
    {
      if storage.Length > 0 then
        OnceAround(readAt + i, storage.Length);
        (readAt + i) % storage.Length
      else 0
    }

    /** Octet by octet into the array. */
    method CopyIn(at: nat, data: seq<Byte>)
      requires at + |data| <= storage.Length
      modifies storage
      ensures storage[..] == Splice(old(storage[..]), at, data)
    {
      for i := 0 to |data|
        invariant forall k :: 0 <= k < storage.Length ==>
          storage[k] == if at <= k < at + i then data[k - at] else old(storage[k])
      {
        storage[at + i] := data[i];
      }
      SplicedElements(old(storage[..]), storage[..], at, data);
    }

    /** `enqueue_many_with`, copying as much of `data` as fits without wrapping. */
    method EnqueueMany(data: seq<Byte>) returns (size: nat)
      requires Valid()
      modifies this, storage
      ensures Valid() && (View(), size) == R.EnqueueContiguous(old(View()), data)
    {
      if length == 0 {
        readAt := 0;
      }
      var writeAt := GetIdx(length);
      var maxSize := MinOf(Window(), storage.Length - writeAt);
      size := MinOf(maxSize, |data|);
      CopyIn(writeAt, data[..size]);
      length := length + size;
    }

    method EnqueueSlice(data: seq<Byte>) returns (size: nat)
      requires Valid()
      modifies this, storage
      ensures Valid() && (View(), size) == R.EnqueueSlice(old(View()), data)
    {
      hide R.EnqueueContiguous;
      var first := EnqueueMany(data);
      var second := EnqueueMany(data[first..]);
      size := first + second;
    }

    /** `dequeue_many_with`, copying out as much as there is without wrapping. */
    method DequeueMany(most: nat) returns (data: seq<Byte>)
      requires Valid()
      modifies this
      ensures Valid() && |data| == MinOf(MinOf(old(length), storage.Length - old(readAt)), most)
      ensures data == old(View().Data())[..|data|] && View() == R.Dequeue(old(View()), |data|)
    {
      var maxSize := MinOf(length, storage.Length - readAt);
      var size := MinOf(maxSize, most);
      data := storage[readAt..readAt + size];
      FrontOf(View(), most, data);
      readAt := GetIdx(size);
      length := length - size;
    }

    method DequeueSlice(size: nat) returns (data: seq<Byte>)
      requires Valid()
      modifies this
      ensures Valid()
      ensures var n := MinOf(size, old(length));
        data == old(View().Data())[..n] && View() == R.Dequeue(old(View()), n)
    {
      hide R.Ring.Data, R.Ring.Rotated;
      ghost var was := View();
      var first := DequeueMany(size);
      R.DequeueDrops(was, |first|);
      var second := DequeueMany(size - |first|);
      data := first + second;
      DequeuedTwice(was, |first|, |second|);
    }

    method GetAllocated(offset: nat, size: nat) returns (data: seq<Byte>)
      requires Valid()
      ensures data == R.GetAllocated(View(), offset, size)
    {
      if offset > length {
        return [];
      }
      var startAt := GetIdx(offset);
      var n := MinOf(MinOf(size, length - offset), storage.Length - startAt);
      data := storage[startAt..startAt + n];
    }

    /** One copy through `get_unallocated`. */
    method WriteContiguous(offset: nat, data: seq<Byte>) returns (n: nat)
      requires Valid()
      modifies storage
      ensures Valid() && (View(), n) == R.WriteContiguous(old(View()), offset, data)
    {
      if offset > Window() {
        return 0;
      }
      var startAt := GetIdx(length + offset);
      n := MinOf(MinOf(|data|, Window() - offset), storage.Length - startAt);
      CopyIn(startAt, data[..n]);
    }

    method WriteUnallocated(offset: nat, data: seq<Byte>) returns (n: nat)
      requires Valid()
      modifies storage
      ensures Valid() && (View(), n) == R.WriteUnallocated(old(View()), offset, data)
    {
      hide R.WriteContiguous;
      var first := WriteContiguous(offset, data);
      var second := WriteContiguous(offset + first, data[first..]);
      n := first + second;
    }

    method EnqueueUnallocated(count: nat)
      requires Valid() && count <= Window()
      modifies this
      ensures Valid() && View() == R.EnqueueUnallocated(old(View()), count)
    {
      length := length + count;
    }

    method DequeueAllocated(count: nat)
      requires Valid() && count <= length
      modifies this
      ensures Valid() && View() == R.Dequeue(old(View()), count)
    {
      length := length - count;
      readAt := GetIdx(count);
    }
  }

  lemma SplicedElements(was: seq<Byte>, now: seq<Byte>, at: nat, data: seq<Byte>)
    requires at + |data| <= |was| == |now|
    requires forall k :: 0 <= k < |was| ==> now[k] == if at <= k < at + |data| then data[k - at] else was[k]
    ensures now == Splice(was, at, data)
  {
  }

  lemma FrontOf(r: R.Ring, most: nat, data: seq<Byte>)
    requires r.Valid()
    requires var size := MinOf(MinOf(r.length, |r.storage| - r.readAt), most);
      data == r.storage[r.readAt..r.readAt + size]
    ensures data == r.Data()[..|data|]
  {
    hide R.Ring.Data;
    assert data == R.GetAllocated(r, 0, most);
    R.GetAllocatedIsPrefix(r, 0, most);
  }

  /** Dropping in two steps is dropping at once, and what is dropped is the front of the queue. */
  lemma DequeuedTwice(r: R.Ring, a: nat, b: nat)
    requires r.Valid() && a + b <= r.length
    ensures R.Dequeue(R.Dequeue(r, a), b) == R.Dequeue(r, a + b)
    ensures r.Data()[..a] + r.Data()[a..][..b] == r.Data()[..a + b]
  {
  }
}
