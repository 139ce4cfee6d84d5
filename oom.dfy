/** Catching out-of-memory (src/oom.rs). `catch_oom(f)` installs, once per
    process, a panic hook and an allocation-error hook; clears the calling
    thread's pending-error slot; runs `f` under `catch_unwind`; and turns an
    unwinding allocation failure into `Err(AllocError)`. Any other panic inside
    `f` aborts the process.

    Runtime services are modelled on values: the process-wide hook registry is
    the class `Process`, the thread-local cell is the class `ThreadAllocError`,
    the closure is represented by how it ends (`Closure`), and what becomes of
    the call (`Outcome`) includes the abort, which never returns. */
module Oom {
  import opened Base
  import StdVec

  /** `Layout::new::<Hook>()`: a boxed trait object is a data pointer and a
      vtable pointer, 16 bytes aligned to 8 on a 64-bit target. */
  const HookLayout: Layout := Layout(16, 8)

  /** What `Box::try_new(panic_hook)` asks the global allocator for: the
      function item `panic_hook` carries no data. */
  const PanicHookItem: Layout := Layout(0, 1)

  /** The thread-local `THREAD_ALLOC_ERROR: Cell<Option<AllocError>>` of one
      thread, with the associated functions of `ThreadAllocError`. */
  class ThreadAllocError {
    var slot: Option<AllocError>

    /** The cell starts out empty. */
    constructor ()
      ensures slot == None
    {
      slot := None;
    }

    /** `inject(e)`: records `e`; no error may be pending (a debug assertion
        in the source). */
    method Inject(e: AllocError)
      requires slot == None
      modifies this
      ensures slot == Some(e)
    {
      slot := Some(e);
    }

    /** `has_error()`: whether an error is pending. */
    method HasError() returns (b: bool)
      ensures b <==> slot.Some?
    {
      b := slot.Some?;
    }

    /** `take()`: the pending error, if any, leaving the cell empty. */
    method Take() returns (e: Option<AllocError>)
      modifies this
      ensures e == old(slot) && slot == None
    {
      e := slot;
      slot := None;
    }

    /** `clear()`: empties the cell, discarding what it held. */
    method Clear()
      modifies this
      ensures slot == None
    {
      var discarded := Take();
    }
  }

  /** The process's panic hook: the standard one (print, then unwind) or
      `catch_oom`'s `panic_hook`. */
  datatype PanicHandler = StdPanicHandler | CatchOomPanicHandler

  /** The process's allocation-error hook: the standard one (print, then
      abort) or `oom_hook`. */
  datatype AllocErrorHandler = StdAllocErrorHandler | OomHookHandler

  /** Process-wide state: the `SET_HOOK` flag and the two hooks installed. */
  class Process {
    var setHook: bool
    var panicHandler: PanicHandler
    var allocErrorHandler: AllocErrorHandler
    /** How many times `catch_oom` has installed its hooks. */
    ghost var installs: nat

    /** The flag is raised exactly when both hooks are in place, and they have
        been installed once. */
    ghost predicate Valid()
      reads this
    {
      && installs == (if setHook then 1 else 0)
      && (setHook ==> panicHandler == CatchOomPanicHandler && allocErrorHandler == OomHookHandler)
    }

    /** A process starts with the standard hooks and the flag down. */
    constructor ()
      ensures Valid() && !setHook && installs == 0
      ensures panicHandler == StdPanicHandler && allocErrorHandler == StdAllocErrorHandler
    {
      setHook := false;
      panicHandler := StdPanicHandler;
      allocErrorHandler := StdAllocErrorHandler;
      installs := 0;
    }
  }

  /** `panic_hook`: aborts (returns true) exactly when the panicking thread has
      no allocation error pending. */
  method PanicHook(thread: ThreadAllocError) returns (abort: bool)
    ensures abort <==> thread.slot == None
  {
    var pending := thread.HasError();
    abort := !pending;
  }

  /** A panic begins: the runtime runs the installed panic hook. Returns whether
      the process aborted; otherwise the panic unwinds. */
  method RaisePanic(p: Process, thread: ThreadAllocError) returns (aborted: bool)
    ensures aborted <==> p.panicHandler == CatchOomPanicHandler && thread.slot == None
  {
    if p.panicHandler == CatchOomPanicHandler {
      aborted := PanicHook(thread);
    } else {
      aborted := false;
    }
  }

  /** `oom_hook(layout)`: records `AllocError(layout)` for this thread, then
      panics. The error is pending when the panic hook runs, so the panic
      unwinds under either hook. */
  method OomHook(p: Process, thread: ThreadAllocError, layout: Layout) returns (aborted: bool)
    requires thread.slot == None
    modifies thread
    ensures thread.slot == Some(AllocError(layout))
    ensures !aborted
  {
    thread.Inject(AllocError(layout));
    aborted := RaisePanic(p, thread);
  }

  /** `handle_alloc_error(layout)`: the runtime calls the installed
      allocation-error hook. Returns whether the process aborted; otherwise a
      panic unwinds. */
  method SignalAllocError(p: Process, thread: ThreadAllocError, layout: Layout) returns (aborted: bool)
    requires thread.slot == None
    modifies thread
    ensures p.allocErrorHandler == OomHookHandler ==> !aborted && thread.slot == Some(AllocError(layout))
    ensures p.allocErrorHandler == StdAllocErrorHandler ==> aborted && thread.slot == None
  {
    if p.allocErrorHandler == OomHookHandler {
      aborted := OomHook(p, thread, layout);
    } else {
      aborted := true;
    }
  }

  /** How the closure given to `catch_oom` ends: it returns `value`, or an
      allocation inside it fails and reaches `handle_alloc_error(layout)`, or it
      panics for any other reason. */
  datatype Closure<R> = Normal(value: R) | OomPanic(layout: Layout) | OtherPanic

  /** What becomes of a `catch_oom` call: it returns, or the process aborts, or a
      panic escapes it. */
  datatype Outcome<R> = Returned(result: Result<R, AllocError>) | Aborted | Unwinding

  /** How a failure of the standard vector's infallible growth ends the closure
      that hit it: an allocator refusal goes to `handle_alloc_error`, and a
      capacity overflow is an ordinary panic. */
  function Signalled<R>(raised: Option<TryReserveError>, value: R): (c: Closure<R>)
    ensures raised == None <==> c == Normal(value)
    ensures c.OomPanic? <==> raised.Some? && raised.value.AllocFailed?
    ensures c.OomPanic? ==> c.layout == raised.value.layout
  {
    match raised
    case None => Normal(value)
    case Some(CapacityOverflow) => OtherPanic
    case Some(AllocFailed(layout)) => OomPanic(layout)
  }

  /** The result `catch_oom` promises, given whether the hooks were already
      installed and whether boxing the panic hook succeeds. */
  function CatchOomResult<R>(hooksSet: bool, boxGranted: bool, f: Closure<R>): (o: Outcome<R>)
    ensures o != Unwinding
    ensures o == Aborted <==> (hooksSet || boxGranted) && f.OtherPanic?
    ensures o.Returned? && o.result.Ok? <==> (hooksSet || boxGranted) && f.Normal?
    ensures o.Returned? && o.result.Ok? ==> o.result.value == f.value
    ensures (hooksSet || boxGranted) && f.OomPanic? ==> o == Returned(Err(AllocError(f.layout)))
    ensures !hooksSet && !boxGranted ==> o == Returned(Err(AllocError(HookLayout)))
  {
    if !hooksSet && !boxGranted then Returned(Err(AllocError(HookLayout)))
    else match f
      case Normal(v) => Returned(Ok(v))
      case OomPanic(layout) => Returned(Err(AllocError(layout)))
      case OtherPanic => Aborted
  }

  /** The first steps of `catch_oom`: unless `SET_HOOK` is up, box the panic
      hook (failing with the hook's layout), install both hooks and raise the
      flag; then clear the thread's slot. */
  method Arm(p: Process, thread: ThreadAllocError, global: Allocator) returns (r: Result<(), AllocError>)
    requires p.Valid()
    modifies p, thread
    ensures p.Valid()
    ensures p.setHook == (old(p.setHook) || global.grants(PanicHookItem))
    ensures p.setHook ==> r == Ok(()) && thread.slot == None
    ensures !p.setHook ==> r == Err(AllocError(HookLayout)) && unchanged(p, thread)
  {
    if !p.setHook {
      if !global.grants(PanicHookItem) {
        return Err(AllocError(HookLayout));
      }
      p.panicHandler := CatchOomPanicHandler;
      p.allocErrorHandler := OomHookHandler;
      p.setHook := true;
      p.installs := p.installs + 1;
    }
    thread.Clear();
    r := Ok(());
  }

  /** The last steps of `catch_oom`, once `f` has ended: a normal end returns
      its value; a panic that the hook lets unwind is caught, and the error
      taken from the slot is returned; an empty slot there is `unreachable!()`,
      itself a panic. */
  method Resolve<R>(p: Process, thread: ThreadAllocError, f: Closure<R>) returns (o: Outcome<R>)
    requires p.Valid() && p.setHook && thread.slot == None
    modifies thread
    ensures o == CatchOomResult(true, true, f)
    ensures o.Returned? ==> thread.slot == None
  {
    match f {
      case Normal(v) =>
        return Returned(Ok(v));
      case OomPanic(layout) =>
        var aborted := SignalAllocError(p, thread, layout);
        if aborted {
          return Aborted;
        }
      case OtherPanic =>
        var aborted := RaisePanic(p, thread);
        if aborted {
          return Aborted;
        }
    }
    var e := thread.Take();
    match e {
      case Some(err) =>
        o := Returned(Err(err));
      case None =>
        var aborted := RaisePanic(p, thread);
        o := if aborted then Aborted else Unwinding;
    }
  }

  /** `catch_oom(f)`: `Ok` with the closure's value when it returns, `Err` with
      the failed layout when an allocation inside it fails, abort on any other
      panic; installing the hooks happens at most once per process and can
      itself fail. Afterwards the flag is never lower than before, and a call
      that got past installation leaves the slot empty. */
  method CatchOom<R>(p: Process, thread: ThreadAllocError, global: Allocator, f: Closure<R>) returns (o: Outcome<R>)
    requires p.Valid()
    modifies p, thread
    ensures p.Valid() && p.installs <= 1
    ensures o == CatchOomResult(old(p.setHook), global.grants(PanicHookItem), f)
    ensures p.setHook == (old(p.setHook) || global.grants(PanicHookItem))
    ensures p.setHook && o.Returned? ==> thread.slot == None
    ensures !p.setHook ==> unchanged(p, thread)
  {
    var armed := Arm(p, thread, global);
    if armed.Err? {
      return Returned(Err(armed.error));
    }
    o := Resolve(p, thread, f);
  }

  /** Scenario: inside `catch_oom`, `v.push(1)` on an empty `Vec<i32>`
      whose allocator refuses everything returns the refused request, room for
      four `i32`, instead of aborting. The closure runs between `Arm` and
      `Resolve`, as in `CatchOom`. */
  method TestCatchOomAllocFailure(global: Allocator, exhausted: Allocator) returns (o: Outcome<()>)
    requires global.grants(PanicHookItem)
    requires Exhausted(exhausted)
    ensures o == Returned(Err(AllocError(Layout(16, 4))))
  {
    var p := new Process();
    var thread := new ThreadAllocError();
    var v := new StdVec.Vec<int>.NewIn(exhausted, I32);
    var armed := Arm(p, thread, global);
    assert armed.Ok?;
    var raised := v.Push(1);
    o := Resolve(p, thread, Signalled(raised, ()));
  }

  /** A capacity overflow is not an allocation failure: inside `catch_oom`,
      `v.reserve(usize::MAX)` on a `Vec<i32>` panics and the process aborts. */
  method TestCapacityOverflowAborts(global: Allocator, alloc: Allocator) returns (o: Outcome<()>)
    requires global.grants(PanicHookItem)
    ensures o == Aborted
  {
    var p := new Process();
    var thread := new ThreadAllocError();
    var v := new StdVec.Vec<int>.NewIn(alloc, I32);
    var armed := Arm(p, thread, global);
    assert armed.Ok?;
    var raised := v.Reserve(USIZE_MAX);
    o := Resolve(p, thread, Signalled(raised, ()));
  }

  /** Two calls on one thread: the first installs the hooks and reports an
      allocation failure; the second needs no installation, so it succeeds
      even with an exhausted global allocator. The slot is empty after each,
      and the hooks were installed once. */
  method TestTwoCalls(global: Allocator, layout: Layout) returns (first: Outcome<int>, second: Outcome<int>)
    requires global.grants(PanicHookItem)
    ensures first == Returned(Err(AllocError(layout)))
    ensures second == Returned(Ok(7))
  {
    var p := new Process();
    var thread := new ThreadAllocError();
    first := CatchOom(p, thread, global, OomPanic(layout));
    assert thread.slot == None && p.installs == 1;
    var exhausted := Allocator((l: Layout) => false);
    second := CatchOom(p, thread, exhausted, Normal(7));
    assert thread.slot == None && p.installs == 1;
  }

  /** The hooks are process-wide and stay installed: a panic with no
      allocation error pending, raised outside any `catch_oom` call, unwinds
      before the first call and aborts the process after it. */
  method TestPanicOutsideCatchOom(global: Allocator) returns (before: bool, after: bool)
    requires global.grants(PanicHookItem)
    ensures !before && after
  {
    var p := new Process();
    var thread := new ThreadAllocError();
    before := RaisePanic(p, thread);
    var o := CatchOom(p, thread, global, Normal(0));
    after := RaisePanic(p, thread);
  }

  /** Why the slot is cleared before the closure runs: an allocation failure
      outside `catch_oom`, once the hooks are installed, unwinds and leaves its
      error pending. A later call whose closure panics for another reason still
      aborts, instead of returning that stale error. */
  method TestStaleErrorCleared(global: Allocator, layout: Layout) returns (o: Outcome<int>)
    requires global.grants(PanicHookItem)
    ensures o == Aborted
  {
    var p := new Process();
    var thread := new ThreadAllocError();
    var first := CatchOom(p, thread, global, Normal(0));
    var aborted := SignalAllocError(p, thread, layout);
    assert !aborted && thread.slot == Some(AllocError(layout));
    o := CatchOom(p, thread, global, OtherPanic);
  }
}
