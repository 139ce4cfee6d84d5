/** Vocabulary shared by the allocation layer: Option and Result, the bounds of a
    64-bit target's machine integers, memory layouts, the two error types and the
    allocator capability. */
module Base {

  datatype Option<T> = None | Some(value: T)

  datatype Result<T, E> = Ok(value: T) | Err(error: E)

  /** `usize::MAX` and `isize::MAX` on a 64-bit target. */
  const USIZE_MAX: int := 0xFFFF_FFFF_FFFF_FFFF
  const ISIZE_MAX: int := 0x7FFF_FFFF_FFFF_FFFF

  type Usize = n: int | 0 <= n <= USIZE_MAX

  /** Alignments are powers of two, so never zero. */
  type Align = n: nat | 1 <= n witness 1

  /** A memory request: `size` bytes aligned to `align`. */
  datatype Layout = Layout(size: nat, align: Align)

  /** The crate's error value: the layout of the allocation that failed. */
  datatype AllocError = AllocError(layout: Layout)

  /** Why a reservation failed: the capacity arithmetic left the representable
      range, or the allocator refused the request `layout`. */
  datatype TryReserveError = CapacityOverflow | AllocFailed(layout: Layout)

  /** The allocator capability, reduced to which requests it grants. */
  datatype Allocator = Allocator(grants: Layout -> bool)

  /** An allocator that never runs out of memory. */
  ghost predicate Unlimited(a: Allocator) {
    forall l :: a.grants(l)
  }

  /** An allocator that refuses every request. */
  ghost predicate Exhausted(a: Allocator) {
    forall l :: !a.grants(l)
  }

  /** The layout of `i32`, the element type of the scenarios. */
  const I32: Layout := Layout(4, 4)
}
