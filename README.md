# oom-safe, modelled in Dafny

`oom-safe` lets a Rust program treat running out of memory as an error it can
handle. It has two halves:

- **Fallible vector operations** (`src/vec_ext.rs`, and the wrapper type in
  `src/vec.rs`). `try_push`, `try_resize`, `try_resize_with`,
  `try_extend_from_slice` and the `try_with_capacity` constructors all follow
  one pattern. They ask `try_reserve` for headroom first and return its
  `TryReserveError` unchanged. Only after that do they mutate the vector with
  the standard infallible operation, which no longer needs memory.
- **`catch_oom`** (`src/oom.rs`). On its first use it installs two global
  hooks: a panic hook (`panic_hook`) and an allocation-error hook
  (`oom_hook`). A process-wide `SET_HOOK` flag makes this happen once. Each
  call then clears a thread-local `Option<AllocError>` slot and runs the
  closure under `catch_unwind`. If an allocation fails inside the closure,
  `oom_hook` records the failed layout in the slot and panics. The panic hook
  sees the pending error and lets the panic unwind, and `catch_oom` returns
  `Err(error)`. Any other panic finds the slot empty, so the hook aborts the
  process.

The model has five modules, one file each:

| file | module | models |
|---|---|---|
| `base.dfy` | `Base` | `Option`, `Result`, `usize`/`isize` bounds of a 64-bit target, `Layout`, `AllocError`, `TryReserveError`, the allocator as the set of requests it grants |
| `std_vec.dfy` | `StdVec` | the standard `Vec<T, A>` that both halves use: class `Vec` with `elems`, `cap`, its allocator and the layout of `T`; `try_reserve` under the standard library's amortised growth; the infallible operations the crate calls |
| `vec_ext.rs` → `vec_ext.dfy` | `VecExt` | the `VecAllocExt`/`VecExt` trait methods, and the unit tests as scenario methods |
| `vec.rs` → `vec.dfy` | `VecWrapper` | the newtype `Vec<T, A>` as a class wrapping a `StdVec.Vec` |
| `oom.rs` → `oom.dfy` | `Oom` | the thread-local slot (class `ThreadAllocError`), the process's hooks and `SET_HOOK` flag (class `Process`), `panic_hook`, `oom_hook`, and `catch_oom` split into its install-and-clear steps (`Arm`) and its catch-and-take steps (`Resolve`) |

Modelling choices:

- **The allocator** is `Allocator(grants: Layout -> bool)`. A growth request
  succeeds exactly when the allocator grants the new buffer's layout.
- **`try_reserve`** is the function `StdVec.ReserveOutcome`. When the spare
  capacity already covers `additional`, it does nothing. Otherwise:
  - Zero-sized elements, or `len + additional` above `usize::MAX`, give
    `CapacityOverflow`.
  - Else the new capacity is `max(MIN_NON_ZERO_CAP, 2 * cap, len + additional)`.
  - A buffer of that size whose byte size passes `isize::MAX` also gives
    `CapacityOverflow`.
  - An allocator refusal gives `AllocFailed(layout)`.
  - On success the capacity becomes the new value.
- **Infallible growth.** The standard infallible operations (`reserve`,
  `push`, `resize`, `resize_with`, `extend_from_slice`) cannot return an
  error: when growth fails, they raise a panic or call
  `handle_alloc_error(layout)`. In the model they return `raised`, the signal
  they would raise. Every fallible method proves that `raised` is `None`
  after its own reservation succeeds.
- **A generator** (`FnMut() -> T`) is a step function `f: S -> (S, T)` over
  the state the closure captures. `Outputs(f, s, n)` lists the results of
  `n` successive calls, and `After(f, s, n)` is the captured state after
  them. "Slot `len + k` gets the result of the k-th call" is the lemma
  `OutputsAt`.
- **The closure given to `catch_oom`** is represented by how it ends:
  - `Normal(value)`: it returns `value`.
  - `OomPanic(layout)`: an allocation inside it reaches
    `handle_alloc_error(layout)`.
  - `OtherPanic`: any other panic.

  The call's result is an `Outcome`: `Returned(Ok|Err)`, `Aborted`, or
  `Unwinding` (a panic escapes `catch_oom`). The runtime's dispatch to the
  installed hooks is modelled by `RaisePanic` and `SignalAllocError`. With
  those, `catch_oom` is proved equal to the reference function
  `CatchOomResult`, which never yields `Unwinding`.

Behaviour of the code worth noting:

- `try_push` on a full vector calls `try_reserve(1)`. This grows the buffer
  by the amortised policy (at least doubling it, to at least
  `MIN_NON_ZERO_CAP`), not by one slot.
- After the hooks are installed, an allocation failure outside any
  `catch_oom` still runs `oom_hook`, which leaves its error in the thread's
  slot. The `clear()` at src/oom.rs:74, at the start of every `catch_oom`,
  keeps that stale error from being reported (`Oom.TestStaleErrorCleared`).
- Hook installation fails only if `Box::try_new(panic_hook)` fails. That call
  boxes a zero-sized function item, so the request is 0 bytes
  (`PanicHookItem`), while the error it would report carries
  `Layout::new::<Hook>()`, the 16-byte layout of the boxed hook
  (`HookLayout`). The global allocator never refuses a zero-byte request, and
  the standard library does not even call it for a zero-sized value, so this
  error path (src/oom.rs:68) cannot be reached in a real program. The model
  keeps it because the code has it: the `!boxGranted` branch of
  `CatchOomResult` and `CatchOom` is reachable only for an allocator that
  refuses `PanicHookItem`.

## Model

| member | source | states |
|---|---|---|
| `StdVec.ReserveOutcome` | src/vec.rs:30-32 | a reservation is a no-op exactly when the spare capacity already covers `additional`; on success the capacity covers `len + additional`, never shrinks, stays within `usize`, and a real growth at least doubles it, reaches `MIN_NON_ZERO_CAP` and was granted by the allocator; on failure the spare capacity was short, and an allocation failure names a refused request with `T`'s alignment; zero-sized elements can only overflow |
| `StdVec.Vec.NewIn` | src/vec.rs:25-27 | a new standard vector is empty, keeps its allocator, and has capacity 0, or `usize::MAX` for zero-sized elements |
| `StdVec.Vec.TryReserve` | src/vec.rs:30-32 | the elements never change; on `Ok` the capacity is the reservation's result, on `Err` the error is the reservation's and the capacity is unchanged |
| `StdVec.Vec.Push` | src/vec_ext.rs:40 | `push` appends `value` once a one-slot reservation succeeds (always, when there is room) and otherwise leaves the vector as it was and raises the reservation's error |
| `StdVec.Vec.Resize` | src/vec_ext.rs:52 | `resize` makes the contents `Resized(old, newLen, value)` once the missing slots are reserved, and raises the error with nothing changed otherwise |
| `StdVec.Vec.ResizeWith` | src/vec_ext.rs:64 | `resize_with`, growing, appends `Outputs(f, s, newLen - len)` and leaves the generator in state `After(f, s, newLen - len)`; shrinking truncates and does not call it; a failed reservation changes nothing and calls nothing |
| `StdVec.Vec.ExtendFromSlice` | src/vec_ext.rs:73 | `extend_from_slice` appends all of `other` in order once `len(other)` slots are reserved, otherwise nothing |
| `StdVec.Vec.Pop` | src/vec.rs:64 | `pop` gives `None` on an empty vector, otherwise the last element, and the remaining contents followed by it are the old contents; capacity unchanged |
| `StdVec.Vec.Truncate` | src/vec.rs:69 | `truncate(len)` keeps `old[..len]` when `len` is shorter and changes nothing otherwise; capacity unchanged |
| `StdVec.Vec.Clear` | src/vec.rs:74 | `clear` leaves no elements and the same capacity |
| `StdVec.Vec.SetLen` | src/vec.rs:83 | `set_len(n)` with `n <= capacity` makes the length `n`, keeping `old[..n]` or appending the caller-initialised values |
| `StdVec.Repeat` | src/vec_ext.rs:52 | `n` copies of a value: length `n`, every element the value |
| `StdVec.Resized` | src/vec_ext.rs:45-54 | after resizing to `newLen` the length is `newLen`, every surviving old element is in place, and every slot past the old end holds the fill value |
| `StdVec.Outputs` | src/vec_ext.rs:57-66 | `n` calls of the generator yield exactly `n` results |
| `StdVec.OutputsAt` | src/vec_ext.rs:57-66 | the k-th appended element is the result of the k-th call, made from the state left by the k calls before it (calls happen in increasing slot order) |
| `StdVec.OutputsSplit` | src/vec_ext.rs:57-66 | `m` calls of the generator followed by `n` calls from the state they left give the same results, in order, and the same final state as `m + n` calls |
| `VecExt.TryWithCapacityIn` | src/vec_ext.rs:29-33 | on success a fresh, empty vector with the given allocator and capacity at least `capacity` (exactly the reservation's result); on failure exactly the reservation's error |
| `VecExt.TryPush` | src/vec_ext.rs:36-42 | cannot fail while `len < capacity`, and then keeps the capacity; on success the contents are `old + [value]`; on failure the error is the one-slot reservation's and contents and capacity are unchanged |
| `VecExt.TryResize` | src/vec_ext.rs:45-54 | shrinking never fails and keeps `old[..newLen]`; growing reserves `newLen - len` first, then the contents are `old` followed by copies of `value`; on failure nothing changes |
| `VecExt.TryResizeWith` | src/vec_ext.rs:57-66 | growing appends exactly `newLen - len` generator results in call order and leaves the generator after that many calls; shrinking keeps `old[..newLen]` and calls it zero times; on failure nothing changes and it is not called |
| `VecExt.TryExtendFromSlice` | src/vec_ext.rs:68-75 | either all of `other` is appended in order, or the reservation's error is returned before any mutation |
| `VecExt.TryWithCapacity` | src/vec_ext.rs:80-84 | as `TryWithCapacityIn`, with the global allocator |
| `VecExt.CounterOutputs` | src/vec_ext.rs:145-149 | a counter generator started at `s` yields `s + 1, s + 2, …` and ends at `s + n` after `n` calls |
| `VecExt.TestVec` | src/vec_ext.rs:117-124 | capacity 1, then pushing 1, 2, 3: every call succeeds and the contents are `[1, 2, 3]` |
| `VecExt.TestVecWithAlloc` | src/vec_ext.rs:126-133 | the same through an explicit allocator that grants only the first buffer: the pushes need no more memory |
| `VecExt.TestVecResize` | src/vec_ext.rs:135-140 | `try_resize(3, 1)` on an empty vector gives `[1, 1, 1]` |
| `VecExt.TestVecResizeWith` | src/vec_ext.rs:142-152 | `try_resize_with(3, counter)` on an empty vector gives `[1, 2, 3]` and leaves the counter at 3 |
| `VecExt.TestVecResizeWithInSteps` | src/vec_ext.rs:57-66 | `try_resize_with(2, counter)` then `try_resize_with(3, counter)`, with the counter's state carried over, gives the same `[1, 2, 3]` and final count 3 as one call |
| `VecExt.TestVecExtendFromSlice` | src/vec_ext.rs:154-159 | extending an empty vector by `[1, 2, 3]` gives `[1, 2, 3]` |
| `VecExt.TestFailingAllocator` | src/vec_ext.rs:29-33 | with an allocator that refuses everything, `try_with_capacity_in(1, _)` for `i32` returns the refused 16-byte request |
| `VecWrapper.Vec.NewIn` | src/vec.rs:25-27 | the wrapper starts empty, with nothing allocated, over a fresh standard vector |
| `VecWrapper.Vec.TryReserve` | src/vec.rs:30-32 | forwards to the standard `try_reserve`: contents unchanged; on success room for `additional` more; on failure the capacity is unchanged |
| `VecWrapper.Vec.TryWithCapacityIn` | src/vec.rs:35-39 | on success a fresh empty wrapper with capacity at least `capacity`; on failure the reservation's error |
| `VecWrapper.Vec.TryPush` | src/vec.rs:42-48 | reserves only when full; appends `value` on success; unchanged on failure; cannot fail while there is room |
| `VecWrapper.Vec.TryResizeWith` | src/vec.rs:51-60 | reserves before mutating; appends the generator's results in call order when growing; truncates without calling it when shrinking; unchanged on failure |
| `VecWrapper.Vec.Pop` | src/vec.rs:63-65 | `None` on an empty vector, otherwise the last element, removed; capacity unchanged |
| `VecWrapper.Vec.Truncate` | src/vec.rs:68-70 | keeps `old[..min(len, old length)]`; capacity unchanged; cannot fail |
| `VecWrapper.Vec.Clear` | src/vec.rs:73-75 | empties the vector; capacity unchanged; cannot fail |
| `VecWrapper.Vec.SetLen` | src/vec.rs:77-84 | requires `newLen <= capacity`; the length becomes `newLen` |
| `VecWrapper.TestPushAfterReserve` | src/vec.rs:35-48 | after `try_with_capacity_in(1)` on `i32`, three `try_push` calls succeed and give `[1, 2, 3]` |
| `VecWrapper.TestPushPop` | src/vec.rs:42-65 | pushing 1 and 2 then popping three times gives `Some(2)`, `Some(1)`, `None` |
| `Oom.ThreadAllocError.constructor` | src/oom.rs:9-11 | the thread's slot starts empty |
| `Oom.ThreadAllocError.Inject` | src/oom.rs:18-23 | requires no pending error; afterwards the slot holds `Some(e)` |
| `Oom.ThreadAllocError.HasError` | src/oom.rs:27-29 | true exactly when the slot holds an error |
| `Oom.ThreadAllocError.Take` | src/oom.rs:33-35 | returns the previous slot contents and leaves the slot empty |
| `Oom.ThreadAllocError.Clear` | src/oom.rs:39-41 | leaves the slot empty |
| `Oom.Process.constructor` | src/oom.rs:65 | a process starts with `SET_HOOK` false and the standard hooks |
| `Oom.OomHook` | src/oom.rs:44-47 | records `AllocError(layout)` in the slot, and the panic it then raises does not abort |
| `Oom.PanicHook` | src/oom.rs:58-63 | aborts exactly when no allocation error is pending |
| `Oom.RaisePanic` | src/oom.rs:69 | once `panic_hook` is installed, a panic aborts exactly when no allocation error is pending; under the standard hook it unwinds |
| `Oom.SignalAllocError` | src/oom.rs:70 | once `oom_hook` is installed, an allocation failure does not abort and leaves its error pending; under the standard hook it aborts |
| `Oom.Arm` | src/oom.rs:65-74 | installs the hooks only while `SET_HOOK` is false; on success the flag is raised (and stays so), the hooks are in place and the slot is empty; if boxing the hook fails, returns `Err(AllocError(Layout::new::<Hook>()))` with flag, hooks and slot untouched |
| `Oom.Resolve` | src/oom.rs:75-84 | with hooks installed and the slot empty: a normal end gives `Ok(value)`; an allocation failure gives `Err` with the failed layout and leaves the slot empty; any other panic aborts; the `unreachable!()` branch is never taken |
| `Oom.CatchOomResult` | src/oom.rs:49-85 | never lets a panic escape; aborts exactly for an unrelated panic once installation succeeded; returns `Ok` exactly for a normal end once installation succeeded, with the closure's value; returns the failed layout for an allocation failure; returns the hook's layout when installation fails |
| `Oom.CatchOom` | src/oom.rs:55-85 | equals `CatchOomResult` for the flag before the call; the flag afterwards is the old flag or a successful installation, so it never goes back to false; the hooks are installed at most once; a call that got past installation and returned leaves the slot empty; a failed installation changes nothing |
| `Oom.TestCatchOomAllocFailure` | src/oom.rs:74-83 | inside `catch_oom`, `push` on an empty `Vec<i32>` with an exhausted allocator returns `Err` carrying the refused 16-byte request instead of aborting |
| `Oom.TestCapacityOverflowAborts` | src/oom.rs:58-63 | a capacity overflow inside `catch_oom` is an ordinary panic, and the process aborts |
| `Oom.TestTwoCalls` | src/oom.rs:65-74 | a second call does not reinstall the hooks, so it succeeds even with an exhausted allocator |
| `Oom.TestPanicOutsideCatchOom` | src/oom.rs:58-63 | once the hooks are installed, a panic outside `catch_oom` with no pending error aborts the process; before, it unwinds |
| `Oom.TestStaleErrorCleared` | src/oom.rs:74 | an error left in the slot by an allocation failure outside `catch_oom` does not turn a later unrelated panic into `Err`: the process still aborts |

## Left out

- Concurrency: the model has one thread with one slot. The acquire/release ordering on `SET_HOOK`, the race between two threads that both see the flag down, and per-thread storage are not modelled.
- Real unwinding, `catch_unwind`, `set_hook`, `set_alloc_error_hook` and `process::abort` are runtime services. They appear only as the `Process` fields, the `Closure` and `Outcome` values, and the dispatch methods `RaisePanic` and `SignalAllocError`. Builds with `panic = "abort"` are not modelled.
- What the closure does to the slot while it runs (catching its own panics, calling `catch_oom` again) is not modelled: `Closure` records only how the closure ends.
- Other code replacing the installed hooks after `catch_oom` has raised `SET_HOOK` is not modelled.
- Oom.ThreadAllocError.Inject: the source checks "no error pending" with a `debug_assert!`, so in release builds it overwrites a pending error. The model states the check as a precondition.
- Oom.OomHook: inherits `Inject`'s precondition that no error is pending. A second allocation failure outside `catch_oom`, after an earlier one left its error in the slot, reaches `inject` with an error pending. The model does not cover that case.
- Oom.SignalAllocError: the same precondition as `Oom.OomHook`, for the same reason.
- A generator that panics part-way through `resize_with`, leaving a partly filled vector, is not modelled: generators are total step functions.
- Dropping elements is not modelled: `truncate`, `pop` and `clear` only change the sequence of elements.
- The allocator is a fixed predicate on layouts. It keeps no state, a request it refuses once it always refuses, growing in place and allocating afresh are not told apart, and deallocation is not modelled.
- Element storage is a sequence: pointers, copying and the buffer's addresses are not modelled. The standard vector's growth policy is that of a 64-bit target.
- `src/lib.rs` (module wiring and re-exports), the `Sealed` trait, `Deref` and `AsRef` on the wrapper (src/vec.rs:7-21), and the test allocator `Alloc` (src/vec_ext.rs:93-115), which only forwards to the global allocator.
- The definition of `AllocError`, its `Display` formatting and the conversion from `TryReserveError` are not part of these files. `AllocError` is modelled as a value holding its layout.
- `set_len`: the requirement that the new slots be initialised is modelled only by the caller supplying their values (`init`).
