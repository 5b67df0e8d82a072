/**
 * Awaiting one libpulse operation (src/audio.rs): the single-assignment
 * `ReturnSlot` that an operation's callback writes into, and the poll step of
 * `wake_on_op`, which resolves, panics on a cancelled operation, or installs a
 * state callback that will wake the audio task.
 */
module ReturnSlots {
  import opened Prelude

  /** `std::task::Poll`. */
  datatype Poll<T> = Ready(value: T) | Pending

  /** The states a libpulse operation handle reports. */
  datatype OpState = Running | Done | Cancelled

  /** What one poll of the future built by `wake_on_op` produces; `Panicked` is `panic!("cancelled")`. */
  datatype Step<T> = Resolved(value: T) | Suspended | Panicked

  /** What one poll does to the operation's state callback. */
  datatype CallbackChange = Cleared | Installed | Untouched

  /**
   * One poll of `wake_on_op`, given what its poll function returned and the
   * operation's state: a ready value clears the state callback; a pending poll
   * panics on a cancelled operation and otherwise installs a waking callback.
   */
  function WakeOnOpPoll<T>(poll: Poll<T>, state: OpState): (r: (Step<T>, CallbackChange))
    ensures r.0.Resolved? <==> poll.Ready?
    ensures r.0.Resolved? ==> r.0.value == poll.value && r.1 == Cleared
    ensures r.0.Panicked? <==> poll.Pending? && state == Cancelled
    ensures r.1 == Installed <==> r.0.Suspended?
    ensures r.1 == Untouched <==> r.0.Panicked?
  {
    match poll
    case Ready(v) => (Resolved(v), Cleared)
    case Pending => if state == Cancelled then (Panicked, Untouched) else (Suspended, Installed)
  }

  function ApplyChange(c: CallbackChange, installed: bool): bool {
    match c
    case Cleared => false
    case Installed => true
    case Untouched => installed
  }

  /** A libpulse operation handle: its reported state and whether a state callback is set. */
  class Operation {
    var state: OpState
    var hasStateCallback: bool

    constructor (state: OpState)
      ensures this.state == state && !hasStateCallback
    {
      this.state := state;
      hasStateCallback := false;
    }

    /** The body of the `poll_fn` closure in `wake_on_op`, after `f` returned `poll`. */
    method PollWith<T>(poll: Poll<T>) returns (step: Step<T>)
      modifies this
      ensures state == old(state)
      ensures step == WakeOnOpPoll(poll, state).0
      ensures hasStateCallback == ApplyChange(WakeOnOpPoll(poll, state).1, old(hasStateCallback))
    {
      if poll.Ready? {
        hasStateCallback := false;
        step := Resolved(poll.value);
      } else if state == Cancelled {
        step := Panicked;
      } else {
        hasStateCallback := true;
        step := Suspended;
      }
    }
  }

  /** The cell behind a `ReturnSlot`: `Rc<Cell<Option<T>>>`. */
  class ReturnSlot<T> {
    var cell: Option<T>

    /** `ReturnSlot::new`. */
    constructor ()
      ensures cell == None
    {
      cell := None;
    }

    /** `ReturnSlot::callback`: a callback that holds its own handle on this slot. */
    method Callback() returns (cb: SlotCallback<T>)
      ensures fresh(cb) && cb.slot == this && cb.armed && cb.logged == 0
    {
      cb := new SlotCallback(this);
    }

    /** One poll of `ReturnSlot::wait`: take the value if there is one, then the `wake_on_op` step. */
    method WaitPoll(op: Operation) returns (step: Step<T>)
      modifies this, op
      ensures op.state == old(op.state)
      ensures step == WaitStep(old(cell), op.state).0 && cell == None
      ensures op.hasStateCallback
        == ApplyChange(WakeOnOpPoll(TakePoll(old(cell)), op.state).1, old(op.hasStateCallback))
    {
      var poll := if cell.Some? then Ready(cell.value) else Pending;
      cell := None;
      step := op.PollWith(poll);
    }
  }

  /** The closure returned by `ReturnSlot::callback`; `armed` is whether it still holds the slot. */
  class SlotCallback<T> {
    const slot: ReturnSlot<T>
    var armed: bool
    var logged: nat

    constructor (slot: ReturnSlot<T>)
      ensures this.slot == slot && armed && logged == 0
    {
      this.slot := slot;
      armed := true;
      logged := 0;
    }

    ghost function Model(): SlotModel<T>
      reads this, slot
    {
      SlotModel(slot.cell, armed, logged)
    }

    /** One invocation: the first stores `val`; every later one only logs. */
    method Call(val: T)
      modifies this, slot
      ensures Model() == Deliver(old(Model()), val)
    {
      if armed {
        armed := false;
        slot.cell := Some(val);
      } else {
        logged := logged + 1;
      }
    }
  }

  /** The slot's cell together with the callback's own state and the number of anomalies it logged. */
  datatype SlotModel<T> = SlotModel(cell: Option<T>, armed: bool, logged: nat)

  function Deliver<T>(m: SlotModel<T>, v: T): SlotModel<T> {
    if m.armed then m.(cell := Some(v), armed := false) else m.(logged := m.logged + 1)
  }

  /** `self.slot.take()` as a poll result. */
  function TakePoll<T>(cell: Option<T>): Poll<T> {
    if cell.Some? then Ready(cell.value) else Pending
  }

  /** One poll of `wait`: the step it makes and the cell it leaves behind. */
  function WaitStep<T>(cell: Option<T>, state: OpState): (r: (Step<T>, Option<T>))
    ensures r.1 == None
    ensures r.0.Resolved? <==> cell.Some?
    ensures r.0.Resolved? ==> r.0.value == cell.value
  {
    (WakeOnOpPoll(TakePoll(cell), state).0, None)
  }

  /** What reaches the slot's side: the callback firing, or a poll of `wait` seeing the operation in a state. */
  datatype SlotEvent<T> = Fire(value: T) | PollWait(state: OpState)

  /**
   * Runs the events in order until a poll of `wait` completes (resolves or panics);
   * `Suspended` when none does. Returns the last step and the slot's state.
   */
  function WaitRun<T>(m: SlotModel<T>, events: seq<SlotEvent<T>>): (Step<T>, SlotModel<T>)
    decreases |events|
  {
    if events == [] then (Suspended, m)
    else
      match events[0]
      case Fire(v) => WaitRun(Deliver(m, v), events[1..])
      case PollWait(st) =>
        var (step, cell) := WaitStep(m.cell, st);
        if step.Suspended? then WaitRun(m.(cell := cell), events[1..]) else (step, m.(cell := cell))
  }

  /** The value of the first callback invocation, if any. */
  function FirstFire<T>(events: seq<SlotEvent<T>>): Option<T> {
    if events == [] then None
    else if events[0].Fire? then Some(events[0].value)
    else FirstFire(events[1..])
  }

  ghost predicate PolledAfterFire<T>(events: seq<SlotEvent<T>>) {
    exists i, j :: 0 <= i < j < |events| && events[i].Fire? && events[j].PollWait?
  }

  ghost predicate CancelledBeforeFire<T>(events: seq<SlotEvent<T>>) {
    exists j :: 0 <= j < |events| && events[j] == PollWait(Cancelled) &&
      forall i :: 0 <= i < j ==> !events[i].Fire?
  }

  ghost predicate HasPoll<T>(events: seq<SlotEvent<T>>) {
    exists j :: 0 <= j < |events| && events[j].PollWait?
  }

  /**
   * Once the callback has stored a value, the next poll of `wait` resolves to it,
   * and later callback invocations only log.
   */
  lemma {:induction false} StoredValueResolves<T>(m: SlotModel<T>, events: seq<SlotEvent<T>>)
    requires !m.armed && m.cell.Some?
    ensures WaitRun(m, events).0 == if HasPoll(events) then Resolved(m.cell.value) else Suspended
    decreases |events|
  {
    if events != [] {
      var rest := events[1..];
      if events[0].Fire? {
        StoredValueResolves(Deliver(m, events[0].value), rest);
        if HasPoll(rest) {
          var j :| 0 <= j < |rest| && rest[j].PollWait?;
          assert events[j + 1].PollWait?;
        }
        if HasPoll(events) {
          var j :| 0 <= j < |events| && events[j].PollWait?;
          assert rest[j - 1].PollWait?;
        }
      } else {
        assert HasPoll(events);
      }
    }
  }

  /**
   * From a fresh slot, `wait` resolves only to the value of the FIRST callback
   * invocation; it stays pending until a poll follows that invocation, and it
   * panics only when it saw the operation cancelled before any value arrived.
   */
  lemma {:induction false} WaitResolvesFirstWrite<T>(m: SlotModel<T>, events: seq<SlotEvent<T>>)
    requires m.armed && m.cell.None?
    ensures var r := WaitRun(m, events).0;
      && (r.Resolved? ==> FirstFire(events) == Some(r.value))
      && (r.Panicked? ==> CancelledBeforeFire(events))
      && (r.Suspended? <==> !PolledAfterFire(events) && !CancelledBeforeFire(events))
  {
    if events != [] {
      var rest := events[1..];
      match events[0]
      case Fire(v) =>
        StoredValueResolves(Deliver(m, v), rest);
        if HasPoll(rest) {
          var j :| 0 <= j < |rest| && rest[j].PollWait?;
          assert events[0].Fire? && events[j + 1].PollWait?;
        } else {
          forall j | 0 < j < |events| ensures !events[j].PollWait? {
            assert events[j] == rest[j - 1];
          }
        }
      case PollWait(st) =>
        if st == Cancelled {
          assert CancelledBeforeFire(events) by {
            assert events[0] == PollWait(Cancelled);
          }
          assert !PolledAfterFire(events) ==> CancelledBeforeFire(events);
        } else {
          WaitResolvesFirstWrite(m, rest);
          ShiftPastPoll(events);
        }
    }
  }

  /** Dropping a leading non-cancelled poll changes none of the trace predicates. */
  lemma ShiftPastPoll<T>(events: seq<SlotEvent<T>>)
    requires events != [] && events[0].PollWait? && events[0].state != Cancelled
    ensures FirstFire(events) == FirstFire(events[1..])
    ensures PolledAfterFire(events) <==> PolledAfterFire(events[1..])
    ensures CancelledBeforeFire(events) <==> CancelledBeforeFire(events[1..])
  {
    var rest := events[1..];
    if PolledAfterFire(events) {
      var i, j :| 0 <= i < j < |events| && events[i].Fire? && events[j].PollWait?;
      assert rest[i - 1].Fire? && rest[j - 1].PollWait?;
    }
    if PolledAfterFire(rest) {
      var i, j :| 0 <= i < j < |rest| && rest[i].Fire? && rest[j].PollWait?;
      assert events[i + 1].Fire? && events[j + 1].PollWait?;
    }
    if CancelledBeforeFire(events) {
      var j :| 0 <= j < |events| && events[j] == PollWait(Cancelled) &&
        forall i :: 0 <= i < j ==> !events[i].Fire?;
      assert j > 0;
      assert forall i :: 0 <= i < j - 1 ==> !rest[i].Fire? by {
        forall i | 0 <= i < j - 1 ensures !rest[i].Fire? {
          assert rest[i] == events[i + 1];
        }
      }
      assert rest[j - 1] == PollWait(Cancelled);
    }
    if CancelledBeforeFire(rest) {
      var j :| 0 <= j < |rest| && rest[j] == PollWait(Cancelled) &&
        forall i :: 0 <= i < j ==> !rest[i].Fire?;
      assert forall i :: 0 <= i < j + 1 ==> !events[i].Fire? by {
        forall i | 0 <= i < j + 1 ensures !events[i].Fire? {
          if i > 0 { assert events[i] == rest[i - 1]; }
        }
      }
      assert events[j + 1] == PollWait(Cancelled);
    }
  }

  /** How many times the callback was invoked. */
  function Fires<T>(events: seq<SlotEvent<T>>): nat {
    if events == [] then 0 else (if events[0].Fire? then 1 else 0) + Fires(events[1..])
  }

  /** Delivering every invocation to a fresh callback keeps the first value and logs each of the others once. */
  lemma {:induction false} DeliverAllKeepsFirst<T>(m: SlotModel<T>, events: seq<SlotEvent<T>>)
    requires m.armed && m.cell.None? && m.logged == 0
    ensures var r := DeliverAll(m, events);
      && r.cell == FirstFire(events)
      && r.armed == (Fires(events) == 0)
      && r.logged == (if Fires(events) == 0 then 0 else Fires(events) - 1)
  {
    if events != [] {
      if events[0].Fire? {
        DeliveredOnlyLogs(Deliver(m, events[0].value), events[1..]);
      } else {
        DeliverAllKeepsFirst(m, events[1..]);
      }
    }
  }

  lemma {:induction false} DeliveredOnlyLogs<T>(m: SlotModel<T>, events: seq<SlotEvent<T>>)
    requires !m.armed
    ensures DeliverAll(m, events) == m.(logged := m.logged + Fires(events))
    decreases |events|
  {
    if events != [] {
      DeliveredOnlyLogs(if events[0].Fire? then Deliver(m, events[0].value) else m, events[1..]);
    }
  }

  /** The callback side alone: every `Fire` delivered in order, polls ignored. */
  function DeliverAll<T>(m: SlotModel<T>, events: seq<SlotEvent<T>>): SlotModel<T>
    decreases |events|
  {
    if events == [] then m
    else DeliverAll(if events[0].Fire? then Deliver(m, events[0].value) else m, events[1..])
  }
}
