/**
 * `PaRuntime` (src/audio.rs): drives one task on the libpulse main loop. A
 * deferred "poll" event polls the audio task and disables itself; the self-pipe
 * waker writes a byte per wake, and the pipe's I/O event drains the pipe and
 * re-enables the poll event. A ready task stores `Ok` and quits with 0, a
 * panicking poll stores the payload and quits with 111.
 *
 * The native loop is modelled by what it guarantees: it dispatches the poll
 * event only while enabled, the I/O event only while bytes are pending, and
 * nothing once `quit` was called.
 */
module PaRuntimes {
  import opened Prelude

  const EXIT_READY: int := 0
  const EXIT_PANICKED: int := 111
  /** Size of the buffer the wake handler reads into. */
  const WAKE_READ_SIZE: nat := 16

  /** The outcome of one `fut.as_mut().poll(..)` under `catch_unwind`. */
  datatype TaskPoll<R> = TaskReady(value: R) | TaskPending | TaskPanicked(payload: string)

  /** What the shared `ret` cell holds: `Result<R, Box<dyn Any>>`. */
  datatype Stored<R> = StoredOk(value: R) | StoredPanic(payload: string)

  /** What `run` does once the loop has stopped: return the value or resume the panic. */
  datatype RunResult<R> = Returned(value: R) | Resumed(payload: string)

  /**
   * The runtime's state: whether the poll event is enabled, the `ret` cell,
   * whether the poll closure still holds `ret2`, the code passed to `quit`,
   * the bytes pending in the wake pipe, and how many times a result was stored.
   */
  datatype RuntimeModel<R> = RuntimeModel(
    pollEnabled: bool, ret: Option<Stored<R>>, retHandle: bool,
    exitCode: Option<int>, pipe: nat, stores: nat)

  /** Deferred events are created enabled; nothing is stored yet. */
  function Start<R>(): RuntimeModel<R> {
    RuntimeModel(true, None, true, None, 0, 0)
  }

  /** The invariant: a result is stored exactly when the loop was told to quit, with the matching code. */
  predicate Consistent<R>(m: RuntimeModel<R>) {
    && (m.exitCode.None? ==> m.retHandle && m.ret.None? && m.stores == 0)
    && (m.exitCode.Some? ==>
          && !m.retHandle && m.ret.Some? && m.stores == 1
          && (m.exitCode.value == EXIT_READY <==> m.ret.value.StoredOk?)
          && (m.exitCode.value == EXIT_PANICKED <==> m.ret.value.StoredPanic?))
  }

  /** The poll event fires: disable it, poll once, store and quit when the audio task finished or panicked. */
  function FireStep<R>(m: RuntimeModel<R>, outcome: TaskPoll<R>): RuntimeModel<R> {
    var m := m.(pollEnabled := false);
    match outcome
    case TaskPending => m
    case TaskReady(r) =>
      m.(ret := Some(StoredOk(r)), retHandle := false, exitCode := Some(EXIT_READY), stores := m.stores + 1)
    case TaskPanicked(p) =>
      m.(ret := Some(StoredPanic(p)), retHandle := false, exitCode := Some(EXIT_PANICKED), stores := m.stores + 1)
  }

  /** `PaWaker::wake_by_ref`: one byte reaches the pipe when the write succeeds; a failed write is ignored. */
  function WakeStep<R>(m: RuntimeModel<R>, written: bool): RuntimeModel<R> {
    if written then m.(pipe := m.pipe + 1) else m
  }

  /**
   * The pipe's I/O event with the corrected, non-blocking drain (`DrainWakePipe`):
   * every pending byte is read, then the poll event is enabled. The drain as
   * written can block instead (`DrainAsWrittenBlocks`).
   */
  function ReadableStep<R>(m: RuntimeModel<R>): RuntimeModel<R> {
    m.(pipe := 0, pollEnabled := true)
  }

  datatype LoopEvent<R> = Wake(written: bool) | PollFires(outcome: TaskPoll<R>) | PipeReadable

  /** One event offered to the loop; the loop ignores what it would not dispatch. */
  function LoopStep<R>(m: RuntimeModel<R>, e: LoopEvent<R>): RuntimeModel<R> {
    match e
    case Wake(w) => WakeStep(m, w)
    case PollFires(o) => if m.exitCode.None? && m.pollEnabled then FireStep(m, o) else m
    case PipeReadable => if m.exitCode.None? && m.pipe > 0 then ReadableStep(m) else m
  }

  function RunLoop<R>(m: RuntimeModel<R>, events: seq<LoopEvent<R>>): RuntimeModel<R>
    decreases |events|
  {
    if events == [] then m else RunLoop(LoopStep(m, events[0]), events[1..])
  }

  /** Every dispatched event keeps the invariant: in particular a result is stored at most once. */
  lemma {:induction false} RunKeepsConsistent<R>(m: RuntimeModel<R>, events: seq<LoopEvent<R>>)
    requires Consistent(m)
    ensures Consistent(RunLoop(m, events))
    ensures RunLoop(m, events).stores <= 1
    ensures m.exitCode.Some? ==> RunLoop(m, events).ret == m.ret && RunLoop(m, events).exitCode == m.exitCode
    decreases |events|
  {
    if events != [] {
      RunKeepsConsistent(LoopStep(m, events[0]), events[1..]);
    }
  }

  /** `k` wakes in a row. */
  function Wakes<R>(k: nat): (es: seq<LoopEvent<R>>)
    ensures |es| == k && forall i :: 0 <= i < k ==> es[i] == Wake(true)
  {
    if k == 0 then [] else [Wake(true)] + Wakes(k - 1)
  }

  lemma {:induction false} WakesFillPipe<R>(m: RuntimeModel<R>, k: nat)
    ensures RunLoop(m, Wakes(k)) == m.(pipe := m.pipe + k)
    decreases k
  {
    if k > 0 {
      WakesFillPipe(m.(pipe := m.pipe + 1), k - 1);
    }
  }

  lemma RunLoopAppend<R>(m: RuntimeModel<R>, a: seq<LoopEvent<R>>, b: seq<LoopEvent<R>>)
    ensures RunLoop(m, a + b) == RunLoop(RunLoop(m, a), b)
    decreases |a|
  {
    if a != [] {
      assert (a + b)[0] == a[0] && (a + b)[1..] == a[1..] + b;
      RunLoopAppend(LoopStep(m, a[0]), a[1..], b);
    } else {
      assert a + b == b;
    }
  }

  /**
   * Wakes coalesce: however many wakes (at least one) arrive while the audio task is
   * parked, one drain enables the poll event once, the audio task is polled once, and
   * a second firing is not dispatched until another wake arrives.
   */
  lemma WakesCoalesce<R>(m: RuntimeModel<R>, k: nat)
    requires Consistent(m) && m.exitCode.None? && !m.pollEnabled && m.pipe == 0 && k >= 1
    ensures RunLoop(m, Wakes(k) + [PipeReadable, PipeReadable]) == m.(pollEnabled := true)
    ensures RunLoop(m, Wakes(k) + [PipeReadable, PollFires(TaskPending), PollFires(TaskPending)]) == m
  {
    WakesFillPipe(m, k);
    RunLoopAppend(m, Wakes(k), [PipeReadable, PipeReadable]);
    RunLoopAppend(m, Wakes(k), [PipeReadable, PollFires(TaskPending), PollFires(TaskPending)]);
  }

  /** A task that becomes ready makes `run` return its value; a panicking poll makes `run` resume that panic. */
  lemma ReadyReturnsPanicResumes<R>(m: RuntimeModel<R>, outcome: TaskPoll<R>)
    requires Consistent(m) && m.exitCode.None? && m.pollEnabled && !outcome.TaskPending?
    ensures var n := FireStep(m, outcome);
      && Consistent(n) && !n.pollEnabled
      && (outcome.TaskReady? ==> n.exitCode == Some(EXIT_READY) && Finish(n) == Returned(outcome.value))
      && (outcome.TaskPanicked? ==> n.exitCode == Some(EXIT_PANICKED) && Finish(n) == Resumed(outcome.payload))
  {
  }

  /** What `run` returns after the loop stopped (`try_unwrap` and `unwrap` cannot fail then). */
  function Finish<R>(m: RuntimeModel<R>): (r: RunResult<R>)
    requires Consistent(m) && m.exitCode.Some?
    ensures r.Returned? <==> m.exitCode == Some(EXIT_READY)
  {
    match m.ret.value
    case StoredOk(v) => Returned(v)
    case StoredPanic(p) => Resumed(p)
  }

  /**
   * The wake handler's drain loop as written, on the blocking pipe `os_pipe`
   * creates: a read returns up to 16 pending bytes and blocks while none are
   * pending; the loop reads again after every full read. True when the
   * handler ends up blocked in `read`.
   */
  function DrainAsWrittenBlocks(pending: nat): bool
    decreases pending
  {
    if pending == 0 then true
    else if pending >= WAKE_READ_SIZE then DrainAsWrittenBlocks(pending - WAKE_READ_SIZE)
    else false
  }

  /**
   * As written, the handler blocks the loop thread exactly when the pending
   * byte count is a multiple of 16 (for example 16 bytes: one full read, then
   * a read on the empty pipe), and the poll event is not re-enabled until some
   * other thread writes to the pipe.
   */
  lemma {:induction false} DrainAsWrittenBlocksOnMultiples(pending: nat)
    requires pending > 0
    ensures DrainAsWrittenBlocks(pending) <==> pending % WAKE_READ_SIZE == 0
    decreases pending
  {
    if pending > WAKE_READ_SIZE {
      DrainAsWrittenBlocksOnMultiples(pending - WAKE_READ_SIZE);
    }
  }

  /** A read of the pipe into a 16-byte buffer. */
  datatype ReadResult = Filled(count: nat) | WouldBlock

  /** A read on a non-blocking pipe: up to 16 of the pending bytes, or `WouldBlock` when none are pending. */
  function ReadNonBlocking(pending: nat): (r: ReadResult)
    ensures r.WouldBlock? <==> pending == 0
    ensures r.Filled? ==> 0 < r.count <= WAKE_READ_SIZE && r.count <= pending
  {
    if pending == 0 then WouldBlock
    else if pending < WAKE_READ_SIZE then Filled(pending)
    else Filled(WAKE_READ_SIZE)
  }

  /**
   * The drain loop `while let Ok(16) = read(..) {}` on a non-blocking pipe:
   * it always empties the pipe and returns, after `pending / 16 + 1` reads.
   */
  method DrainWakePipe(pending: nat) returns (left: nat, readCalls: nat)
    ensures left == 0
    ensures readCalls == pending / WAKE_READ_SIZE + 1
  {
    left, readCalls := pending, 0;
    while true
      invariant left <= pending && (pending - left) % WAKE_READ_SIZE == 0
      invariant readCalls == (pending - left) / WAKE_READ_SIZE
      decreases left
    {
      var r := ReadNonBlocking(left);
      readCalls := readCalls + 1;
      if r.Filled? && r.count == WAKE_READ_SIZE {
        left := left - WAKE_READ_SIZE;
      } else {
        if r.Filled? {
          left := left - r.count;
        }
        return;
      }
    }
  }

  /** The state `PaRuntime::run` keeps while the loop runs. */
  class PaRuntime<R> {
    var pollEnabled: bool
    var ret: Option<Stored<R>>
    var retHandle: bool
    var exitCode: Option<int>
    var pipe: nat
    var stores: nat

    ghost function Model(): RuntimeModel<R>
      reads this
    {
      RuntimeModel(pollEnabled, ret, retHandle, exitCode, pipe, stores)
    }

    /** `PaRuntime::new` and the set-up of `run`: an empty pipe and an enabled poll event. */
    constructor ()
      ensures Model() == Start()
    {
      pollEnabled, ret, retHandle, exitCode, pipe, stores := true, None, true, None, 0, 0;
    }

    /** A wake from any thread. */
    method Wake(written: bool)
      modifies this
      ensures Model() == WakeStep(old(Model()), written)
    {
      if written {
        pipe := pipe + 1;
      }
    }

    /** The poll event's closure. */
    method FirePoll(outcome: TaskPoll<R>)
      requires Consistent(Model()) && exitCode.None? && pollEnabled
      modifies this
      ensures Model() == FireStep(old(Model()), outcome)
      ensures Consistent(Model())
    {
      pollEnabled := false;
      match outcome
      case TaskPending =>
      case TaskReady(r) =>
        assert retHandle;  // `ret2.take().unwrap()` cannot fail
        retHandle := false;
        ret := Some(StoredOk(r));
        stores := stores + 1;
        exitCode := Some(EXIT_READY);
      case TaskPanicked(p) =>
        assert retHandle;
        retHandle := false;
        ret := Some(StoredPanic(p));
        stores := stores + 1;
        exitCode := Some(EXIT_PANICKED);
    }

    /** The wake pipe's I/O event closure, with the corrected drain. */
    method OnWakeReadable()
      requires exitCode.None? && pipe > 0
      modifies this
      ensures Model() == ReadableStep(old(Model()))
    {
      var left, _ := DrainWakePipe(pipe);
      pipe := left;
      pollEnabled := true;
    }

    /** The end of `run`, once the loop has stopped. */
    method Finish() returns (r: RunResult<R>)
      requires Consistent(Model()) && exitCode.Some?
      ensures r.Returned? <==> exitCode == Some(EXIT_READY)
      ensures r.Returned? ==> ret == Some(StoredOk(r.value))
      ensures r.Resumed? ==> ret == Some(StoredPanic(r.payload))
    {
      assert !retHandle;  // `Rc::try_unwrap(ret)` succeeds
      match ret.value
      case StoredOk(v) => r := Returned(v);
      case StoredPanic(p) => r := Resumed(p);
    }
  }
}
