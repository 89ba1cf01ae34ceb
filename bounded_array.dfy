/**
 * The fixed-capacity array of cxa_array.h. The array does not own its storage:
 * it is handed a caller-supplied buffer whose length is the maximum number of
 * elements, and `insertIndex` counts the elements in use. Every element lives in
 * a slot of that buffer; the C API hands out pointers to slots, which this model
 * represents by slot indices.
 */
module BoundedArrays {
  import opened Wrappers

  class BoundedArray<T> {
    /** The caller-supplied storage (bufferLoc); its length is maxNumElements. */
    const buffer: array<T>
    /** The number of elements in use; the next append writes buffer[insertIndex]. */
    var insertIndex: nat

    /** The size never exceeds the capacity of the buffer. */
    ghost predicate Valid()
      reads this
    {
      insertIndex <= buffer.Length
    }

    /** The elements of the array, in order. */
    ghost function Elements(): seq<T>
      reads this, buffer
      requires Valid()
    {
      buffer[..insertIndex]
    }

    /** cxa_array_init: an empty array over the given buffer. */
    constructor Init(storage: array<T>)
      ensures buffer == storage && Valid()
      ensures Elements() == []
    {
      buffer := storage;
      insertIndex := 0;
    }

    /** cxa_array_init_inPlace: the first currNumElems slots of the buffer already hold elements. */
    constructor InitInPlace(storage: array<T>, currNumElems: nat)
      requires currNumElems <= storage.Length
      ensures buffer == storage && Valid()
      ensures Elements() == storage[..currNumElems]
    {
      buffer := storage;
      insertIndex := currNumElems;
    }

    /** cxa_array_getSize_elems */
    function Size(): (n: nat)
      reads this, buffer
      requires Valid()
      ensures n == |Elements()|
    {
      insertIndex
    }

    /** cxa_array_getMaxSize_elems: the capacity, which the size never exceeds. */
    function MaxSize(): (n: nat)
      reads this, buffer
      requires Valid()
      ensures |Elements()| <= n
    {
      buffer.Length
    }

    /** cxa_array_getFreeSize_elems: the number of appends that can still succeed. */
    function FreeSize(): (n: nat)
      reads this, buffer
      requires Valid()
      ensures |Elements()| + n == MaxSize()
    {
      buffer.Length - insertIndex
    }

    /** cxa_array_isFull */
    predicate IsFull()
      reads this, buffer
      requires Valid()
      ensures IsFull() <==> FreeSize() == 0
    {
      insertIndex == buffer.Length
    }

    /** cxa_array_isEmpty */
    predicate IsEmpty()
      reads this, buffer
      requires Valid()
      ensures IsEmpty() <==> Elements() == []
    {
      insertIndex == 0
    }

    /** cxa_array_get: the element at `index`, or None (NULL) when it is out of bounds. */
    function Get(index: nat): (r: Option<T>)
      reads this, buffer
      requires Valid()
      ensures index < |Elements()| ==> r == Some(Elements()[index])
      ensures index >= |Elements()| ==> r == None
    {
      if index < insertIndex then Some(buffer[index]) else None
    }

    /**
     * cxa_array_get_noBoundsCheck: the slot at `index` whenever it lies within the
     * capacity, in use or not; it agrees with Get on the elements in use.
     */
    function GetNoBoundsCheck(index: nat): (r: Option<T>)
      reads this, buffer
      requires Valid()
      ensures r.Some? <==> index < MaxSize()
      ensures index < |Elements()| ==> r == Get(index)
    {
      if index < buffer.Length then Some(buffer[index]) else None
    }

    /**
     * cxa_array_append: copies `item` into the next free slot. A full array is
     * left unmodified. Only the new slot of the buffer is written.
     */
    method Append(item: T) returns (ok: bool)
      requires Valid()
      modifies this, buffer
      ensures Valid()
      ensures ok == (old(insertIndex) < buffer.Length)
      ensures Elements() == if ok then old(Elements()) + [item] else old(Elements())
      ensures buffer[..] == if ok then old(buffer[..])[old(insertIndex) := item] else old(buffer[..])
    {
      if insertIndex == buffer.Length {
        return false;
      }
      buffer[insertIndex] := item;
      insertIndex := insertIndex + 1;
      ok := true;
    }

    /**
     * cxa_array_append_empty: grows the array by one slot without copying anything
     * into it and returns that slot, or None (NULL) when the array is full.
     */
    method AppendEmpty() returns (slot: Option<nat>)
      requires Valid()
      modifies this
      ensures Valid()
      ensures slot.None? <==> old(insertIndex) == buffer.Length
      ensures slot.Some? ==> slot.value == old(insertIndex) && slot.value < buffer.Length
      ensures Elements() == if slot.Some? then old(Elements()) + [buffer[old(insertIndex)]] else old(Elements())
    {
      if insertIndex == buffer.Length {
        return None;
      }
      slot := Some(insertIndex);
      insertIndex := insertIndex + 1;
    }

    /**
     * cxa_array_remove_atIndex: removes the element at `index`, moving every
     * following element down one slot. An index outside the array fails.
     */
    method RemoveAtIndex(index: nat) returns (ok: bool)
      requires Valid()
      modifies this, buffer
      ensures Valid()
      ensures ok == (index < old(insertIndex))
      ensures Elements() == if ok then old(Elements()[..index] + Elements()[index + 1..]) else old(Elements())
    {
      if index >= insertIndex {
        return false;
      }
      ghost var before := buffer[..];
      var n := insertIndex;
      var i := index;
      while i + 1 < n
        invariant index <= i < n <= buffer.Length == |before|
        invariant forall k :: 0 <= k < index ==> buffer[k] == before[k]
        invariant forall k :: index <= k < i ==> buffer[k] == before[k + 1]
        invariant forall k :: i <= k < buffer.Length ==> buffer[k] == before[k]
      {
        buffer[i] := buffer[i + 1];
        i := i + 1;
      }
      insertIndex := n - 1;
      ok := true;
      assert buffer[..insertIndex] == before[..index] + before[index + 1..n];
    }

    /**
     * cxa_array_remove: removes the element stored in slot `slot` (the C code
     * takes the address of that slot). A slot that holds no element fails.
     */
    method Remove(slot: int) returns (ok: bool)
      requires Valid()
      modifies this, buffer
      ensures Valid()
      ensures ok == (0 <= slot < old(insertIndex))
      ensures Elements() == if ok then old(Elements()[..slot] + Elements()[slot + 1..]) else old(Elements())
    {
      if slot < 0 {
        return false;
      }
      ok := RemoveAtIndex(slot);
    }

    /**
     * cxa_array_overwrite: replaces the element at `index`, which must be in use;
     * every other element is kept.
     */
    method Overwrite(index: nat, item: T) returns (ok: bool)
      requires Valid()
      modifies buffer
      ensures Valid()
      ensures ok == (index < insertIndex)
      ensures Elements() == if ok then old(Elements())[index := item] else old(Elements())
    {
      if index >= insertIndex {
        return false;
      }
      buffer[index] := item;
      ok := true;
    }

    /**
     * cxa_array_insert: puts `item` at `index` (at most the size), moving the
     * elements from `index` on up one slot. A full array fails.
     */
    method Insert(index: nat, item: T) returns (ok: bool)
      requires Valid()
      modifies this, buffer
      ensures Valid()
      ensures ok == (index <= old(insertIndex) < buffer.Length)
      ensures Elements() == if ok then old(Elements()[..index]) + [item] + old(Elements()[index..]) else old(Elements())
    {
      if index > insertIndex || insertIndex == buffer.Length {
        return false;
      }
      ghost var before := buffer[..];
      var n := insertIndex;
      var j := n;
      while j > index
        invariant index <= j <= n < buffer.Length == |before|
        invariant forall k :: 0 <= k < j ==> buffer[k] == before[k]
        invariant forall k :: j < k <= n ==> buffer[k] == before[k - 1]
      {
        buffer[j] := buffer[j - 1];
        j := j - 1;
      }
      buffer[index] := item;
      insertIndex := n + 1;
      ok := true;
      assert buffer[..insertIndex] == before[..index] + [item] + before[index..n];
    }

    /**
     * cxa_array_clear: the array becomes empty; the buffer keeps whatever it
     * held (the header says the underlying memory may still contain the data).
     */
    method Clear()
      requires Valid()
      modifies this
      ensures Valid()
      ensures Elements() == []
      ensures buffer[..] == old(buffer[..])
    {
      insertIndex := 0;
    }

    /**
     * cxa_array_iterate: visits the slots 0 .. size - 1 in order; the result is
     * the sequence of elements the loop body sees.
     */
    method Visit() returns (visited: seq<T>)
      requires Valid()
      ensures visited == Elements()
    {
      visited := [];
      var i := 0;
      while i < insertIndex
        invariant i <= insertIndex
        invariant visited == buffer[..i]
      {
        visited := visited + [buffer[i]];
        i := i + 1;
      }
    }
  }
}
