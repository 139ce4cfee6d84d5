/** The standard library's growable array `Vec<T, A>`, reduced to what the
    fallible layer relies on: its elements, its capacity, the allocator it grows
    through and the amortised growth policy of its raw buffer.

    The infallible growth operations (`reserve`, `push`, `resize`, `resize_with`,
    `extend_from_slice`) have no error return: when growing fails they raise a
    signal instead (a capacity-overflow panic, or `handle_alloc_error(layout)`).
    Here they return `raised`, the signal they would raise, and leave the vector
    as it was; `None` means they returned normally. */
module StdVec {
  import opened Base

  function Max(a: int, b: int): int {
    if a < b then b else a
  }

  /** `RawVec::MIN_NON_ZERO_CAP`: the least capacity a growing buffer gets. */
  function MinNonZeroCap(elem: Layout): nat {
    if elem.size == 1 then 8 else if elem.size <= 1024 then 4 else 1
  }

  /** `Layout::array::<T>(n)` succeeds: the byte size, padded to the alignment,
      stays within `isize::MAX`. */
  predicate ArrayFits(elem: Layout, n: nat) {
    n * elem.size <= ISIZE_MAX - (elem.align - 1)
  }

  /** The layout of a buffer of `n` elements. */
  function ArrayLayout(elem: Layout, n: nat): Layout {
    Layout(n * elem.size, elem.align)
  }

  /** Capacity of a new vector: zero-sized elements never need memory, so their
      capacity is the largest length there is. */
  function InitialCap(elem: Layout): nat {
    if elem.size == 0 then USIZE_MAX else 0
  }

  lemma MulAtLeast(a: nat, b: nat)
    requires 1 <= b
    ensures a <= a * b
  {
  }

  /** What `try_reserve(additional)` does to a vector of length `len` and capacity
      `cap`: the capacity it then has, or the error it reports. */
  function ReserveOutcome(len: nat, cap: nat, additional: nat, elem: Layout, alloc: Allocator)
    : (r: Result<nat, TryReserveError>)
    requires len <= cap <= USIZE_MAX
    ensures r == Ok(cap) <==> additional <= cap - len
    ensures r.Ok? ==> len + additional <= r.value <= USIZE_MAX && cap <= r.value
    ensures r.Ok? && r.value != cap ==>
              2 * cap <= r.value && MinNonZeroCap(elem) <= r.value && alloc.grants(ArrayLayout(elem, r.value))
    ensures r.Err? ==> cap - len < additional
    ensures r.Err? && r.error.AllocFailed? ==>
              0 < elem.size && r.error.layout.align == elem.align && !alloc.grants(r.error.layout)
    ensures elem.size == 0 && cap - len < additional ==> r == Err(CapacityOverflow)
  {
    if additional <= cap - len then Ok(cap)
    else if elem.size == 0 then Err(CapacityOverflow)
    else if len + additional > USIZE_MAX then Err(CapacityOverflow)
    else
      var newCap := Max(MinNonZeroCap(elem), Max(2 * cap, len + additional));
      if !ArrayFits(elem, newCap) then Err(CapacityOverflow)
      else if !alloc.grants(ArrayLayout(elem, newCap)) then Err(AllocFailed(ArrayLayout(elem, newCap)))
      else MulAtLeast(newCap, elem.size); Ok(newCap)
  }

  /** `n` copies of `value`. */
  function Repeat<T>(value: T, n: nat): (r: seq<T>)
    ensures |r| == n
    ensures forall i :: 0 <= i < n ==> r[i] == value
  {
    if n == 0 then [] else Repeat(value, n - 1) + [value]
  }

  /** The contents after `resize(newLen, value)`: the first `newLen` elements are
      kept, and every slot past the old end holds `value`. */
  function Resized<T>(s: seq<T>, newLen: nat, value: T): (r: seq<T>)
    ensures |r| == newLen
    ensures forall i :: 0 <= i < newLen && i < |s| ==> r[i] == s[i]
    ensures forall i :: |s| <= i < newLen ==> r[i] == value
  {
    if newLen <= |s| then s[..newLen] else s + Repeat(value, newLen - |s|)
  }

  /** A generator `FnMut() -> T` is a step function on the state it captures:
      one call turns state `s` into `f(s).0` and yields `f(s).1`.
      After(f, s, n) is the captured state after `n` calls. */
  function After<S, T>(f: S -> (S, T), s: S, n: nat): S {
    if n == 0 then s else f(After(f, s, n - 1)).0
  }

  /** The results of `n` successive calls of the generator, in call order. */
  function Outputs<S, T>(f: S -> (S, T), s: S, n: nat): (r: seq<T>)
    ensures |r| == n
  {
    if n == 0 then [] else Outputs(f, s, n - 1) + [f(After(f, s, n - 1)).1]
  }

  /** The k-th result comes from the k-th call, made from the state left by the
      k calls before it. */
  lemma {:induction false} OutputsAt<S, T>(f: S -> (S, T), s: S, n: nat, k: nat)
    requires k < n
    ensures Outputs(f, s, n)[k] == f(After(f, s, k)).1
  {
    if k < n - 1 {
      OutputsAt(f, s, n - 1, k);
    }
  }

  /** Calling the generator `m` times and then, from the state it was left
      in, `n` more times yields the same results and the same final state as
      calling it `m + n` times in one go. */
  lemma {:induction false} OutputsSplit<S, T>(f: S -> (S, T), s: S, m: nat, n: nat)
    ensures After(f, After(f, s, m), n) == After(f, s, m + n)
    ensures Outputs(f, s, m) + Outputs(f, After(f, s, m), n) == Outputs(f, s, m + n)
  {
    if n > 0 {
      OutputsSplit(f, s, m, n - 1);
    }
  }

  class Vec<T> {
    /** The initialised elements, in order; their number is the length. */
    var elems: seq<T>
    /** The number of elements the buffer can hold. */
    var cap: nat
    /** The allocator the buffer comes from (`A`). */
    const alloc: Allocator
    /** Size and alignment of `T`. */
    const elem: Layout

    ghost predicate Valid()
      reads this
    {
      |elems| <= cap <= USIZE_MAX && (elem.size == 0 ==> cap == USIZE_MAX)
    }

    /** `Vec::new_in(alloc)`: empty, nothing allocated. */
    constructor NewIn(alloc: Allocator, elem: Layout)
      ensures Valid()
      ensures this.alloc == alloc && this.elem == elem
      ensures elems == [] && cap == InitialCap(elem)
    {
      this.alloc := alloc;
      this.elem := elem;
      elems := [];
      cap := InitialCap(elem);
    }

    /** `try_reserve(additional)`. */
    method TryReserve(additional: Usize) returns (r: Result<(), TryReserveError>)
      requires Valid()
      modifies this
      ensures Valid() && elems == old(elems)
      ensures match ReserveOutcome(old(|elems|), old(cap), additional, elem, alloc)
              case Ok(c) => r == Ok(()) && cap == c
              case Err(e) => r == Err(e) && cap == old(cap)
    {
      match ReserveOutcome(|elems|, cap, additional, elem, alloc)
      case Ok(c) =>
        cap := c;
        r := Ok(());
      case Err(e) =>
        r := Err(e);
    }

    /** `reserve(additional)`: as `TryReserve`, but a failure is raised. */
    method Reserve(additional: Usize) returns (raised: Option<TryReserveError>)
      requires Valid()
      modifies this
      ensures Valid() && elems == old(elems)
      ensures match ReserveOutcome(old(|elems|), old(cap), additional, elem, alloc)
              case Ok(c) => raised == None && cap == c
              case Err(e) => raised == Some(e) && cap == old(cap)
    {
      var r := TryReserve(additional);
      raised := if r.Err? then Some(r.error) else None;
    }

    /** `push(value)`: grows by the amortised policy only when full. */
    method Push(value: T) returns (raised: Option<TryReserveError>)
      requires Valid()
      modifies this
      ensures Valid()
      ensures match ReserveOutcome(old(|elems|), old(cap), 1, elem, alloc)
              case Ok(c) => raised == None && cap == c && elems == old(elems) + [value]
              case Err(e) => raised == Some(e) && cap == old(cap) && elems == old(elems)
    {
      if |elems| == cap {
        raised := Reserve(1);
        if raised.Some? {
          return;
        }
      }
      elems := elems + [value];
      raised := None;
    }

    /** `resize(newLen, value)`: grows by copies of `value`, or truncates. */
    method Resize(newLen: Usize, value: T) returns (raised: Option<TryReserveError>)
      requires Valid()
      modifies this
      ensures Valid()
      ensures match ReserveOutcome(old(|elems|), old(cap), Max(newLen - old(|elems|), 0), elem, alloc)
              case Ok(c) => raised == None && cap == c && elems == Resized(old(elems), newLen, value)
              case Err(e) => raised == Some(e) && cap == old(cap) && elems == old(elems)
    {
      if newLen > |elems| {
        raised := Reserve(newLen - |elems|);
        if raised.Some? {
          return;
        }
        elems := elems + Repeat(value, newLen - |elems|);
      } else {
        elems := elems[..newLen];
        raised := None;
      }
    }

    /** `resize_with(newLen, f)`: grows by calling `f` once per new slot, in
        slot order, or truncates without calling it. Returns the generator's
        final state. */
    method ResizeWith<S>(newLen: Usize, f: S -> (S, T), s: S) returns (raised: Option<TryReserveError>, s': S)
      requires Valid()
      modifies this
      ensures Valid()
      ensures match ReserveOutcome(old(|elems|), old(cap), Max(newLen - old(|elems|), 0), elem, alloc)
              case Ok(c) =>
                && raised == None && cap == c
                && (newLen <= old(|elems|) ==> elems == old(elems)[..newLen] && s' == s)
                && (old(|elems|) < newLen ==>
                      elems == old(elems) + Outputs(f, s, newLen - old(|elems|))
                      && s' == After(f, s, newLen - old(|elems|)))
              case Err(e) => raised == Some(e) && cap == old(cap) && elems == old(elems) && s' == s
    {
      s' := s;
      if newLen <= |elems| {
        elems := elems[..newLen];
        raised := None;
        return;
      }
      var n := newLen - |elems|;
      raised := Reserve(n);
      if raised.Some? {
        return;
      }
      ghost var start, reserved := elems, cap;
      var i := 0;
      while i < n
        invariant 0 <= i <= n
        invariant elems == start + Outputs(f, s, i)
        invariant s' == After(f, s, i)
        invariant cap == reserved
      {
        var step := f(s');
        elems := elems + [step.1];
        s' := step.0;
        i := i + 1;
      }
    }

    /** `extend_from_slice(other)`: appends a copy of `other`. */
    method ExtendFromSlice(other: seq<T>) returns (raised: Option<TryReserveError>)
      requires Valid()
      requires |other| <= USIZE_MAX
      modifies this
      ensures Valid()
      ensures match ReserveOutcome(old(|elems|), old(cap), |other|, elem, alloc)
              case Ok(c) => raised == None && cap == c && elems == old(elems) + other
              case Err(e) => raised == Some(e) && cap == old(cap) && elems == old(elems)
    {
      raised := Reserve(|other|);
      if raised.None? {
        elems := elems + other;
      }
    }

    /** `pop()`: removes and returns the last element, if any. */
    method Pop() returns (r: Option<T>)
      requires Valid()
      modifies this
      ensures Valid() && cap == old(cap)
      ensures old(elems) == [] ==> r == None && elems == []
      ensures old(elems) != [] ==> r == Some(old(elems)[|old(elems)| - 1]) && elems + [r.value] == old(elems)
    {
      if elems == [] {
        r := None;
      } else {
        r := Some(elems[|elems| - 1]);
        elems := elems[..|elems| - 1];
      }
    }

    /** `truncate(len)`: keeps the first `len` elements; no effect if there are fewer. */
    method Truncate(len: Usize)
      requires Valid()
      modifies this
      ensures Valid() && cap == old(cap)
      ensures elems == if len < old(|elems|) then old(elems)[..len] else old(elems)
    {
      if len < |elems| {
        elems := elems[..len];
      }
    }

    /** `clear()`: removes every element and keeps the buffer. */
    method Clear()
      requires Valid()
      modifies this
      ensures Valid() && cap == old(cap) && elems == []
    {
      elems := [];
    }

    /** `set_len(newLen)`. The caller promises `newLen <= capacity` and that the
        slots between the old and the new length hold initialised values; `init`
        stands for those values. */
    method SetLen(newLen: Usize, init: seq<T>)
      requires Valid()
      requires newLen <= cap
      requires |init| == Max(newLen - |elems|, 0)
      modifies this
      ensures Valid() && cap == old(cap) && |elems| == newLen
      ensures elems == if newLen <= old(|elems|) then old(elems)[..newLen] else old(elems) + init
    {
      if newLen <= |elems| {
        elems := elems[..newLen];
      } else {
        elems := elems + init;
      }
    }
  }
}
