/** The extension traits `VecAllocExt` and `VecExt` on the standard vector
    (src/vec_ext.rs): every growing operation reserves headroom with
    `try_reserve` first, returns its error untouched, and only then mutates the
    vector with an infallible operation that can no longer need memory.
    `Base.Result` stands for `Result<_, TryReserveError>`. */
module VecExt {
  import opened Base
  import opened StdVec

  /** `VecAllocExt::try_with_capacity_in`: an empty vector with room for at
      least `capacity` elements, or the reservation's error. */
  method TryWithCapacityIn<T>(capacity: Usize, alloc: Allocator, elem: Layout)
    returns (r: Result<Vec<T>, TryReserveError>)
    ensures match ReserveOutcome(0, InitialCap(elem), capacity, elem, alloc)
            case Ok(c) =>
              && r.Ok? && fresh(r.value) && r.value.Valid()
              && r.value.elems == [] && r.value.cap == c
              && r.value.alloc == alloc && r.value.elem == elem
            case Err(e) => r == Err(e)
    ensures r.Ok? ==> capacity <= r.value.cap
  {
    var vec := new Vec<T>.NewIn(alloc, elem);
    var reserved := vec.TryReserve(capacity);
    if reserved.Err? {
      return Err(reserved.error);
    }
    return Ok(vec);
  }

  /** `VecAllocExt::try_push`: reserves one slot only when the vector is full,
      so it cannot fail while there is room; on failure nothing changes. */
  method TryPush<T>(v: Vec<T>, value: T) returns (r: Result<(), TryReserveError>)
    requires v.Valid()
    modifies v
    ensures v.Valid()
    ensures old(|v.elems|) < old(v.cap) ==> r.Ok? && v.cap == old(v.cap)
    ensures match ReserveOutcome(old(|v.elems|), old(v.cap), 1, v.elem, v.alloc)
            case Ok(c) => r.Ok? && v.cap == c && v.elems == old(v.elems) + [value]
            case Err(e) => r == Err(e) && v.cap == old(v.cap) && v.elems == old(v.elems)
  {
    if |v.elems| == v.cap {
      var reserved := v.TryReserve(1);
      if reserved.Err? {
        return Err(reserved.error);
      }
    }
    var raised := v.Push(value);
    assert raised == None;
    return Ok(());
  }

  /** `VecAllocExt::try_resize`: when growing, reserves the missing
      `newLen - len` slots first and fills them with `value`; shrinking keeps the
      prefix and cannot fail. */
  method TryResize<T>(v: Vec<T>, newLen: Usize, value: T) returns (r: Result<(), TryReserveError>)
    requires v.Valid()
    modifies v
    ensures v.Valid()
    ensures newLen <= old(|v.elems|) ==> r.Ok? && v.cap == old(v.cap) && v.elems == old(v.elems)[..newLen]
    ensures match ReserveOutcome(old(|v.elems|), old(v.cap), Max(newLen - old(|v.elems|), 0), v.elem, v.alloc)
            case Ok(c) => r.Ok? && v.cap == c && v.elems == Resized(old(v.elems), newLen, value)
            case Err(e) => r == Err(e) && v.cap == old(v.cap) && v.elems == old(v.elems)
  {
    if newLen > |v.elems| {
      var reserved := v.TryReserve(newLen - |v.elems|);
      if reserved.Err? {
        return Err(reserved.error);
      }
    }
    var raised := v.Resize(newLen, value);
    assert raised == None;
    return Ok(());
  }

  /** `VecAllocExt::try_resize_with`: when growing, reserves first and then
      fills slot `len + k` with the result of the generator's k-th call; when
      shrinking, or when the reservation fails, the generator is not called.
      Returns the generator's captured state afterwards. */
  method TryResizeWith<T, S>(v: Vec<T>, newLen: Usize, f: S -> (S, T), s: S)
    returns (r: Result<(), TryReserveError>, s': S)
    requires v.Valid()
    modifies v
    ensures v.Valid()
    ensures newLen <= old(|v.elems|) ==>
              r.Ok? && v.cap == old(v.cap) && v.elems == old(v.elems)[..newLen] && s' == s
    ensures match ReserveOutcome(old(|v.elems|), old(v.cap), Max(newLen - old(|v.elems|), 0), v.elem, v.alloc)
            case Ok(c) =>
              && r.Ok? && v.cap == c
              && (old(|v.elems|) < newLen ==>
                    v.elems == old(v.elems) + Outputs(f, s, newLen - old(|v.elems|))
                    && s' == After(f, s, newLen - old(|v.elems|)))
            case Err(e) => r == Err(e) && v.cap == old(v.cap) && v.elems == old(v.elems) && s' == s
  {
    if newLen > |v.elems| {
      var reserved := v.TryReserve(newLen - |v.elems|);
      if reserved.Err? {
        return Err(reserved.error), s;
      }
    }
    var raised;
    raised, s' := v.ResizeWith(newLen, f, s);
    assert raised == None;
    return Ok(()), s';
  }

  /** `VecAllocExt::try_extend_from_slice`: appends all of `other`, in order, or
      fails before anything is appended. */
  method TryExtendFromSlice<T>(v: Vec<T>, other: seq<T>) returns (r: Result<(), TryReserveError>)
    requires v.Valid()
    requires |other| <= USIZE_MAX
    modifies v
    ensures v.Valid()
    ensures match ReserveOutcome(old(|v.elems|), old(v.cap), |other|, v.elem, v.alloc)
            case Ok(c) => r.Ok? && v.cap == c && v.elems == old(v.elems) + other
            case Err(e) => r == Err(e) && v.cap == old(v.cap) && v.elems == old(v.elems)
  {
    var reserved := v.TryReserve(|other|);
    if reserved.Err? {
      return Err(reserved.error);
    }
    var raised := v.ExtendFromSlice(other);
    assert raised == None;
    return Ok(());
  }

  /** `VecExt::try_with_capacity`: `TryWithCapacityIn` with the global
      allocator, which is passed in as `global`. */
  method TryWithCapacity<T>(capacity: Usize, global: Allocator, elem: Layout)
    returns (r: Result<Vec<T>, TryReserveError>)
    ensures match ReserveOutcome(0, InitialCap(elem), capacity, elem, global)
            case Ok(c) =>
              && r.Ok? && fresh(r.value) && r.value.Valid()
              && r.value.elems == [] && r.value.cap == c
              && r.value.alloc == global && r.value.elem == elem
            case Err(e) => r == Err(e)
    ensures r.Ok? ==> capacity <= r.value.cap
  {
    var vec := new Vec<T>.NewIn(global, elem);
    var reserved := vec.TryReserve(capacity);
    if reserved.Err? {
      return Err(reserved.error);
    }
    return Ok(vec);
  }

  /** The generator of the resize-with scenario: `i += 1; i` on a captured `i`. */
  function Counter(i: int): (int, int) {
    (i + 1, i + 1)
  }

  /** A counter started at `s` yields `s + 1, s + 2, ...` and has been bumped
      once per call. */
  lemma {:induction false} CounterOutputs(s: int, n: nat)
    ensures After(Counter, s, n) == s + n
    ensures forall k :: 0 <= k < n ==> Outputs(Counter, s, n)[k] == s + k + 1
  {
    if n > 0 {
      CounterOutputs(s, n - 1);
      var prev := Outputs(Counter, s, n - 1);
      assert Outputs(Counter, s, n) == prev + [s + n];
    }
  }

  /** Scenario `test_vec`: capacity 1, then pushing 1, 2 and 3 succeeds every
      time and gives [1, 2, 3]; each `unwrap` is an assertion. */
  method TestVec(global: Allocator) returns (contents: seq<int>)
    requires Unlimited(global)
    ensures contents == [1, 2, 3]
  {
    var r := TryWithCapacity<int>(1, global, I32);
    assert r.Ok?;
    var v := r.value;
    var p := TryPush(v, 1);
    assert p.Ok?;
    p := TryPush(v, 2);
    assert p.Ok?;
    p := TryPush(v, 3);
    assert p.Ok?;
    contents := v.elems;
  }

  /** Scenario `test_vec_with_alloc`: as `TestVec`, through an allocator
      passed explicitly. Once the first reservation succeeds, the pushes need
      no memory, whatever the allocator. */
  method TestVecWithAlloc(alloc: Allocator) returns (contents: seq<int>)
    requires alloc.grants(ArrayLayout(I32, MinNonZeroCap(I32)))
    ensures contents == [1, 2, 3]
  {
    var r := TryWithCapacityIn<int>(1, alloc, I32);
    assert r.Ok?;
    var v := r.value;
    var p := TryPush(v, 1);
    assert p.Ok?;
    p := TryPush(v, 2);
    assert p.Ok?;
    p := TryPush(v, 3);
    assert p.Ok?;
    contents := v.elems;
  }

  /** Scenario `test_vec_resize`: `try_resize(3, 1)` on an empty vector gives
      [1, 1, 1]. */
  method TestVecResize(alloc: Allocator) returns (contents: seq<int>)
    requires Unlimited(alloc)
    ensures contents == [1, 1, 1]
  {
    var v := new Vec<int>.NewIn(alloc, I32);
    var r := TryResize(v, 3, 1);
    assert r.Ok?;
    contents := v.elems;
  }

  /** Scenario `test_vec_resize_with`: resizing an empty vector to 3 with a
      counter from 0 gives [1, 2, 3] and leaves the counter at 3. */
  method TestVecResizeWith(alloc: Allocator) returns (contents: seq<int>, i: int)
    requires Unlimited(alloc)
    ensures contents == [1, 2, 3] && i == 3
  {
    var v := new Vec<int>.NewIn(alloc, I32);
    var r;
    r, i := TryResizeWith(v, 3, Counter, 0);
    assert r.Ok?;
    CounterOutputs(0, 3);
    contents := v.elems;
  }

  /** Resizing with the counter in two steps, to 2 and then to 3, with the
      counter's state carried from the first call to the second, gives the
      same [1, 2, 3] and final count as the single call of
      `test_vec_resize_with`. */
  method TestVecResizeWithInSteps(alloc: Allocator) returns (contents: seq<int>, i: int)
    requires Unlimited(alloc)
    ensures contents == [1, 2, 3] && i == 3
  {
    var v := new Vec<int>.NewIn(alloc, I32);
    var r;
    r, i := TryResizeWith(v, 2, Counter, 0);
    assert r.Ok?;
    r, i := TryResizeWith(v, 3, Counter, i);
    assert r.Ok?;
    OutputsSplit(Counter, 0, 2, 1);
    CounterOutputs(0, 3);
    contents := v.elems;
  }

  /** Scenario `test_vec_extend_from_slice`: extending an empty vector by
      [1, 2, 3] gives [1, 2, 3]. */
  method TestVecExtendFromSlice(alloc: Allocator) returns (contents: seq<int>)
    requires Unlimited(alloc)
    ensures contents == [1, 2, 3]
  {
    var v := new Vec<int>.NewIn(alloc, I32);
    var r := TryExtendFromSlice(v, [1, 2, 3]);
    assert r.Ok?;
    contents := v.elems;
  }

  /** An allocator that refuses everything makes `try_with_capacity_in(1, _)`
      report the refused request: room for the minimum non-zero capacity of
      four `i32`, 16 bytes aligned to 4. */
  method TestFailingAllocator(alloc: Allocator) returns (r: Result<Vec<int>, TryReserveError>)
    requires Exhausted(alloc)
    ensures r == Err(AllocFailed(Layout(16, 4)))
  {
    r := TryWithCapacityIn<int>(1, alloc, I32);
  }
}
