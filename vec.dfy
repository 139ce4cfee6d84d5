/** The crate's own `Vec<T, A>` (src/vec.rs): a transparent wrapper around the
    standard vector whose growing methods report allocation failure instead of
    aborting, and whose shrinking methods forward unchanged. */
module VecWrapper {
  import opened Base
  import StdVec

  class Vec<T> {
    /** The wrapped standard vector (field `.0`). */
    const inner: StdVec.Vec<T>

    ghost predicate Valid()
      reads this, inner
    {
      inner.Valid()
    }

    /** The elements, in order. */
    function Contents(): seq<T>
      reads this, inner
    {
      inner.elems
    }

    /** The number of elements the buffer can hold. */
    function Capacity(): nat
      reads this, inner
    {
      inner.cap
    }

    /** `new_in(alloc)`: an empty vector that has allocated nothing. */
    constructor NewIn(alloc: Allocator, elem: Layout)
      ensures Valid() && fresh(inner)
      ensures Contents() == [] && Capacity() == StdVec.InitialCap(elem)
      ensures inner.alloc == alloc && inner.elem == elem
    {
      inner := new StdVec.Vec<T>.NewIn(alloc, elem);
    }

    /** `try_reserve(additional)`: room for `additional` more elements, or the
        error with nothing changed. */
    method TryReserve(additional: Usize) returns (r: Result<(), TryReserveError>)
      requires Valid()
      modifies inner
      ensures Valid() && Contents() == old(Contents())
      ensures match StdVec.ReserveOutcome(old(|Contents()|), old(Capacity()), additional, inner.elem, inner.alloc)
              case Ok(c) => r.Ok? && Capacity() == c
              case Err(e) => r == Err(e) && Capacity() == old(Capacity())
      ensures r.Ok? ==> |Contents()| + additional <= Capacity()
    {
      r := inner.TryReserve(additional);
    }

    /** `try_with_capacity_in(capacity, alloc)`: an empty vector with room for at
        least `capacity` elements, or the reservation's error. */
    static method TryWithCapacityIn(capacity: Usize, alloc: Allocator, elem: Layout)
      returns (r: Result<Vec<T>, TryReserveError>)
      ensures match StdVec.ReserveOutcome(0, StdVec.InitialCap(elem), capacity, elem, alloc)
              case Ok(c) =>
                && r.Ok? && fresh(r.value) && fresh(r.value.inner) && r.value.Valid()
                && r.value.Contents() == [] && r.value.Capacity() == c
                && r.value.inner.alloc == alloc && r.value.inner.elem == elem
              case Err(e) => r == Err(e)
      ensures r.Ok? ==> capacity <= r.value.Capacity()
    {
      var vec := new Vec<T>.NewIn(alloc, elem);
      var reserved := vec.TryReserve(capacity);
      if reserved.Err? {
        return Err(reserved.error);
      }
      return Ok(vec);
    }

    /** `try_push(value)`: reserves one slot only when full, so it cannot fail
        while there is room; on failure nothing changes. */
    method TryPush(value: T) returns (r: Result<(), TryReserveError>)
      requires Valid()
      modifies inner
      ensures Valid()
      ensures old(|Contents()|) < old(Capacity()) ==> r.Ok? && Capacity() == old(Capacity())
      ensures match StdVec.ReserveOutcome(old(|Contents()|), old(Capacity()), 1, inner.elem, inner.alloc)
              case Ok(c) => r.Ok? && Capacity() == c && Contents() == old(Contents()) + [value]
              case Err(e) => r == Err(e) && Capacity() == old(Capacity()) && Contents() == old(Contents())
    {
      if |inner.elems| == inner.cap {
        var reserved := TryReserve(1);
        if reserved.Err? {
          return Err(reserved.error);
        }
      }
      var raised := inner.Push(value);
      assert raised == None;
      return Ok(());
    }

    /** `try_resize_with(newLen, f)`: when growing, reserves first and then fills
        slot `len + k` with the generator's k-th result; when shrinking it
        truncates, and neither a shrink nor a failed reservation calls the
        generator. Returns the generator's captured state afterwards. */
    method TryResizeWith<S>(newLen: Usize, f: S -> (S, T), s: S) returns (r: Result<(), TryReserveError>, s': S)
      requires Valid()
      modifies inner
      ensures Valid()
      ensures newLen <= old(|Contents()|) ==>
                r.Ok? && Capacity() == old(Capacity()) && Contents() == old(Contents())[..newLen] && s' == s
      ensures match StdVec.ReserveOutcome(old(|Contents()|), old(Capacity()), StdVec.Max(newLen - old(|Contents()|), 0),
                                          inner.elem, inner.alloc)
              case Ok(c) =>
                && r.Ok? && Capacity() == c
                && (old(|Contents()|) < newLen ==>
                      Contents() == old(Contents()) + StdVec.Outputs(f, s, newLen - old(|Contents()|))
                      && s' == StdVec.After(f, s, newLen - old(|Contents()|)))
              case Err(e) => r == Err(e) && Capacity() == old(Capacity()) && Contents() == old(Contents()) && s' == s
    {
      if newLen > |inner.elems| {
        var reserved := TryReserve(newLen - |inner.elems|);
        if reserved.Err? {
          return Err(reserved.error), s;
        }
      }
      var raised;
      raised, s' := inner.ResizeWith(newLen, f, s);
      assert raised == None;
      return Ok(()), s';
    }

    /** `pop()`: `None` on an empty vector, otherwise the last element, which is
        removed. */
    method Pop() returns (r: Option<T>)
      requires Valid()
      modifies inner
      ensures Valid() && Capacity() == old(Capacity())
      ensures old(Contents()) == [] ==> r == None && Contents() == []
      ensures old(Contents()) != [] ==>
                r == Some(old(Contents())[|old(Contents())| - 1]) && Contents() + [r.value] == old(Contents())
    {
      r := inner.Pop();
    }

    /** `truncate(len)`: keeps the first `len` elements and the buffer. */
    method Truncate(len: Usize)
      requires Valid()
      modifies inner
      ensures Valid() && Capacity() == old(Capacity())
      ensures Contents() == if len < old(|Contents()|) then old(Contents())[..len] else old(Contents())
    {
      inner.Truncate(len);
    }

    /** `clear()`: removes every element and keeps the buffer. */
    method Clear()
      requires Valid()
      modifies inner
      ensures Valid() && Capacity() == old(Capacity()) && Contents() == []
    {
      inner.Clear();
    }

    /** `set_len(newLen)`, whose caller guarantees `newLen <= capacity`; `init`
        stands for the values the caller has written past the old length. */
    method SetLen(newLen: Usize, init: seq<T>)
      requires Valid()
      requires newLen <= Capacity()
      requires |init| == StdVec.Max(newLen - |Contents()|, 0)
      modifies inner
      ensures Valid() && Capacity() == old(Capacity()) && |Contents()| == newLen
      ensures Contents() == if newLen <= old(|Contents()|) then old(Contents())[..newLen] else old(Contents()) + init
    {
      inner.SetLen(newLen, init);
    }
  }

  /** `Vec::try_with_capacity_in(1, alloc)` then `try_push` three times: once
      the first buffer is granted, every push succeeds without further memory,
      and the contents are the pushed values in order. */
  method TestPushAfterReserve(alloc: Allocator) returns (contents: seq<int>)
    requires alloc.grants(StdVec.ArrayLayout(I32, StdVec.MinNonZeroCap(I32)))
    ensures contents == [1, 2, 3]
  {
    var r := Vec<int>.TryWithCapacityIn(1, alloc, I32);
    assert r.Ok?;
    var v := r.value;
    var p := v.TryPush(1);
    assert p.Ok?;
    p := v.TryPush(2);
    assert p.Ok?;
    p := v.TryPush(3);
    assert p.Ok?;
    contents := v.Contents();
  }

  /** Popping after pushing gives the pushed values back in reverse order and
      leaves the buffer in place. */
  method TestPushPop(alloc: Allocator) returns (a: Option<int>, b: Option<int>, c: Option<int>)
    requires alloc.grants(StdVec.ArrayLayout(I32, StdVec.MinNonZeroCap(I32)))
    ensures a == Some(2) && b == Some(1) && c == None
  {
    var v := new Vec<int>.NewIn(alloc, I32);
    var p := v.TryPush(1);
    assert p.Ok?;
    p := v.TryPush(2);
    assert p.Ok?;
    a := v.Pop();
    assert v.Contents() == [1] by {
      assert v.Contents() + [2] == [1, 2];
      assert |v.Contents()| == 1 && v.Contents()[0] == (v.Contents() + [2])[0];
    }
    b := v.Pop();
    c := v.Pop();
  }
}
