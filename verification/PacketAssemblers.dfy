/** The reassembly slots as objects updated in place, proved against the functions on values. */
module PacketAssemblers {
  import opened Common
  import opened Fragments
  import Asm = AssemblerList

  class PacketAssembler<K(==)> {
    /** Whether the buffer is a vector or a fixed array. */
    const growable: bool
    var key: Option<K>
    var buffer: seq<Byte>
    var assembler: Asm.Contigs
    var totalSize: Option<nat>
    var expiresAt: int

    function View(): Slot<K>
      reads this
    {
      Slot(key, buffer, assembler, totalSize, expiresAt)
    }

    predicate Sized()
      reads this
    {
      totalSize.Some? ==> totalSize.value <= |buffer|
    }

    constructor (growable: bool, buffer: seq<Byte>)
      ensures this.growable == growable
      ensures View() == Slot(None, buffer, Asm.Nil, None, 0)
    {
      this.growable := growable;
      this.key := None;
      this.buffer := buffer;
      this.assembler := Asm.Nil;
      this.totalSize := None;
      this.expiresAt := 0;
    }

    method Reset()
      modifies this
      ensures View() == Emptied(old(View()))
    {
      key := None;
      assembler := Asm.Nil;
      totalSize := None;
      expiresAt := 0;
    }

    method SetTotalSize(size: nat) returns (r: Answer)
      requires Sized()
      modifies this
      ensures Sized() && (View(), r) == Act(growable, old(View()), SetTotal(size))
    {
      if totalSize.Some? {
        if totalSize.value != size {
          return Failed;
        }
      }
      if |buffer| < size {
        if !growable {
          return Failed;
        }
        buffer := Resized(buffer, size);
      }
      totalSize := Some(size);
      r := Done;
    }

    method Record(offset: nat, size: nat)
      modifies this`assembler
      ensures assembler == (var r := Asm.Add(old(assembler), offset, size); if r.None? then old(assembler) else r.value)
    {
      var added := Asm.Add(assembler, offset, size);
      if added.Some? {
        assembler := added.value;
      }
    }

    method Add(data: seq<Byte>, offset: nat) returns (r: Answer)
      requires Sized()
      modifies this
      ensures Sized() && (View(), r) == Act(growable, old(View()), Action.Add(data, offset))
    {
      if |buffer| < offset + |data| {
        if !growable {
          return Failed;
        }
        buffer := Resized(buffer, offset + |data|);
      }
      buffer := Splice(buffer, offset, data);
      Record(offset, |data|);
      r := Done;
    }

    /** `data` is what the caller's closure writes at `offset`, `ok` whether it succeeds. */
    method AddWith(data: seq<Byte>, offset: nat, ok: bool) returns (r: Answer)
      requires Sized() && Fits(View(), Action.AddWith(data, offset, ok))
      modifies this
      ensures Sized() && (View(), r) == Act(growable, old(View()), Action.AddWith(data, offset, ok))
    {
      if |buffer| < offset {
        return Failed;
      }
      buffer := Splice(buffer, offset, data);
      if !ok {
        return Failed;
      }
      Record(offset, |data|);
      r := Done;
    }

    method Assemble() returns (r: Answer)
      requires Sized()
      modifies this
      ensures Sized() && (View(), r) == Act(growable, old(View()), Action.Assemble)
    {
      if !IsComplete(View()) {
        return Incomplete;
      }
      var size := totalSize.value;
      Reset();
      r := Packet(buffer[..size]);
    }
  }

  class PacketAssemblerSet<K(==)> {
    const assemblers: seq<PacketAssembler<K>>

    ghost predicate Valid() {
      forall i, j :: 0 <= i < j < |assemblers| ==> assemblers[i] != assemblers[j]
    }

    /** The slots read `v`, in order. */
    ghost predicate Shows(v: seq<Slot<K>>)
      reads assemblers
    {
      |v| == |assemblers| && forall i :: 0 <= i < |v| ==> assemblers[i].View() == v[i]
    }

    constructor (assemblers: seq<PacketAssembler<K>>)
      requires forall i, j :: 0 <= i < j < |assemblers| ==> assemblers[i] != assemblers[j]
      ensures Valid() && this.assemblers == assemblers
    {
      this.assemblers := assemblers;
    }

    /** The slot for `key`, taken if there is none yet; None if all slots hold other packets. */
    method Get(key: K, expiresAt: int, ghost v: seq<Slot<K>>) returns (slot: Option<PacketAssembler<K>>)
      requires Valid() && Shows(v)
      modifies assemblers
      ensures var got := Fragments.Get(v, key, expiresAt);
        if got.None? then slot.None? && Shows(v)
        else slot == Some(assemblers[got.value.1]) && Shows(got.value.0)
    {
      var emptySlot: Option<nat> := None;
      var i := 0;
      while i < |assemblers|
        invariant 0 <= i <= |assemblers| && Shows(v)
        invariant forall j :: 0 <= j < i ==> v[j].key != Some(key)
        invariant emptySlot.Some? ==> emptySlot.value < i && v[emptySlot.value].key.None?
        invariant emptySlot.None? ==> forall j :: 0 <= j < i ==> v[j].key.Some?
        invariant Find(v, key) == FindFrom(v, key, i, emptySlot)
      {
        assert v[i] == assemblers[i].View();
        if assemblers[i].key == Some(key) {
          return Some(assemblers[i]);
        }
        if assemblers[i].key.None? {
          emptySlot := Some(i);
        }
        i := i + 1;
      }
      if emptySlot.None? {
        return None;
      }
      var taken := assemblers[emptySlot.value];
      assert v[emptySlot.value] == taken.View();
      taken.key := Some(key);
      taken.expiresAt := expiresAt;
      slot := Some(taken);
    }

    method RemoveExpired(now: int, ghost v: seq<Slot<K>>)
      requires Valid() && Shows(v)
      modifies assemblers
      ensures Shows(Fragments.RemoveExpired(v, now))
    {
      ghost var want := Fragments.RemoveExpired(v, now);
      hide Fragments.RemoveExpired;
      var i := 0;
      while i < |assemblers|
        invariant 0 <= i <= |assemblers|
        invariant forall j :: 0 <= j < i ==> assemblers[j].View() == want[j]
        invariant forall j :: i <= j < |assemblers| ==> assemblers[j].View() == v[j]
      {
        var frag := assemblers[i];
        assert frag.View() == v[i] && want[i] == if Expired(v[i], now) then Emptied(v[i]) else v[i];
        if frag.key.Some? && frag.expiresAt < now {
          frag.Reset();
        }
        i := i + 1;
      }
    }
  }
}
