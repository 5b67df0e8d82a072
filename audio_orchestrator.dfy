/**
 * The audio task `audio_loop` runs on the PulseAudio runtime (src/audio.rs): connect,
 * subscribe to source notifications, then alternate between searching for a
 * webcam source (loading a loopback module for it) and waiting for the
 * notification that makes the search worth repeating, until the shutdown
 * signal wins the biased select; then unload the module still tracked and
 * acknowledge the shutdown.
 */
module Orchestration {
  import opened Prelude
  import opened Decimal
  import opened Subscription
  import opened SourceSelection

  /** libpulse's context states. */
  datatype ContextState = Unconnected | Connecting | Authorizing | SettingName | Ready | Failed | Terminated

  /** What one poll of `connect`'s future does: finish with success or failure, or wait for a state change. */
  datatype ConnectPoll = Connected | ConnectFailed | AwaitStateChange

  /**
   * One poll of `connect`'s `poll_fn`. It clears the state callback when it
   * finishes and installs one (waking the audio task) while it waits.
   */
  function PollConnect(state: ContextState): (r: (ConnectPoll, bool))
    ensures r.1 <==> r.0 == AwaitStateChange
    ensures r.0 == Connected <==> state == Ready
    ensures r.0 == ConnectFailed <==> state == Failed || state == Terminated
  {
    match state
    case Ready => (Connected, false)
    case Failed => (ConnectFailed, false)
    case Terminated => (ConnectFailed, false)
    case _ => (AwaitStateChange, true)
  }

  /** How the audio task ended: `connect` failed (and `audio_loop` then panics on the error), or shutdown completed. */
  datatype TaskEnd = ConnectionLost | ShutDown

  /** `Opening`: before `connect` finishes. */
  datatype Phase = Opening | Searching | Waiting | Finished(end: TaskEnd)

  /**
   * The audio task's state: where it is, the module id it tracks, the source index
   * the current wait is about, the `unload_module` requests it made, and what
   * it reported on stderr.
   */
  datatype TaskModel = TaskModel(
    phase: Phase,
    moduleId: Option<uint32>,
    sourceIndex: Option<uint32>,
    unloads: seq<uint32>,
    failedUnloads: nat,
    searchErrors: nat,
    acknowledged: bool)

  function Init(): TaskModel {
    TaskModel(Opening, None, None, [], 0, 0, false)
  }

  /** What happens to the audio task next. */
  datatype Input =
    | ConnectDone(ok: bool)
    | SearchDone(outcome: Result<Option<(uint32, uint32)>, string>)
    | EventArrives(ev: SubscriptionEvent)
    | ShutdownSignal(unloadOk: bool)

  function OnConnect(m: TaskModel, ok: bool): TaskModel {
    if ok then m.(phase := Searching) else m.(phase := Finished(ConnectionLost))
  }

  /** The `match` on `find_and_load_module`'s outcome in the search loop. */
  function OnSearch(m: TaskModel, outcome: Result<Option<(uint32, uint32)>, string>): TaskModel {
    match outcome
    case Ok(Some(found)) => m.(phase := Waiting, moduleId := Some(found.0), sourceIndex := Some(found.1))
    case Ok(None) => m.(phase := Waiting, sourceIndex := None)
    case Err(_) => m.(searchErrors := m.searchErrors + 1)
  }

  /** The `match` on one notification's operation in the wait loop. */
  function OnEvent(m: TaskModel, ev: SubscriptionEvent): TaskModel {
    if ev.op == New && m.sourceIndex.None? then m.(phase := Searching)
    else if ev.op == Removed && m.sourceIndex == Some(ev.index) then m.(phase := Searching, moduleId := None)
    else m
  }

  /** The shutdown path after the biased select: unload what is tracked, then acknowledge. */
  function OnShutdown(m: TaskModel, unloadOk: bool): TaskModel {
    match m.moduleId
    case Some(id) =>
      m.(phase := Finished(ShutDown), unloads := m.unloads + [id],
         failedUnloads := if unloadOk then m.failedUnloads else m.failedUnloads + 1,
         acknowledged := true)
    case None => m.(phase := Finished(ShutDown), acknowledged := true)
  }

  /** One input, taken only in the phase that can receive it; the shutdown signal wins in either loop. */
  function Step(m: TaskModel, input: Input): TaskModel {
    match input
    case ConnectDone(ok) => if m.phase.Opening? then OnConnect(m, ok) else m
    case SearchDone(outcome) => if m.phase.Searching? then OnSearch(m, outcome) else m
    case EventArrives(ev) => if m.phase.Waiting? then OnEvent(m, ev) else m
    case ShutdownSignal(ok) => if m.phase.Searching? || m.phase.Waiting? then OnShutdown(m, ok) else m
  }

  function Run(m: TaskModel, inputs: seq<Input>): TaskModel
    decreases |inputs|
  {
    if inputs == [] then m else Run(Step(m, inputs[0]), inputs[1..])
  }

  /**
   * What holds of the audio task at every point: no module is tracked before the
   * first search or while searching afresh after a removal; while waiting, a
   * module is tracked exactly when the wait is about a source; nothing is
   * unloaded or acknowledged before the end; a shutdown unloads at most one
   * module and always acknowledges; a failed connection does neither.
   */
  predicate Inv(m: TaskModel) {
    && (m.phase.Opening? ==> m.moduleId.None? && m.sourceIndex.None?)
    && (m.phase.Searching? ==> m.moduleId.None?)
    && (m.phase.Waiting? ==> (m.moduleId.Some? <==> m.sourceIndex.Some?))
    && (!m.phase.Finished? ==> m.unloads == [] && m.failedUnloads == 0 && !m.acknowledged)
    && (m.phase == Finished(ShutDown) ==> m.acknowledged && |m.unloads| <= 1 && m.failedUnloads <= |m.unloads|)
    && (m.phase == Finished(ConnectionLost) ==> !m.acknowledged && m.unloads == [])
  }

  lemma StepKeepsInv(m: TaskModel, input: Input)
    requires Inv(m)
    ensures Inv(Step(m, input))
  {
  }

  /** Every trace from the start keeps the invariant; once finished, nothing changes. */
  lemma {:induction false} RunKeepsInv(m: TaskModel, inputs: seq<Input>)
    requires Inv(m)
    ensures Inv(Run(m, inputs))
    ensures m.phase.Finished? ==> Run(m, inputs) == m
    decreases |inputs|
  {
    if inputs != [] {
      StepKeepsInv(m, inputs[0]);
      RunKeepsInv(Step(m, inputs[0]), inputs[1..]);
    }
  }

  /** A search error is logged and retried; otherwise the audio task waits, tracking what was loaded. */
  lemma SearchOutcomes(m: TaskModel, outcome: Result<Option<(uint32, uint32)>, string>)
    requires Inv(m) && m.phase.Searching?
    ensures var n := Step(m, SearchDone(outcome));
      && (outcome.Err? ==> n.phase.Searching? && n.moduleId.None? && n.searchErrors == m.searchErrors + 1)
      && (outcome == Ok(None) ==> n.phase.Waiting? && n.moduleId.None? && n.sourceIndex.None?)
      && (outcome.Ok? && outcome.value.Some? ==>
            n.phase.Waiting? && n.moduleId == Some(outcome.value.value.0) && n.sourceIndex == Some(outcome.value.value.1))
  {
  }

  /**
   * While waiting on a source, only its removal ends the wait, and then the
   * module is forgotten without being unloaded; every other notification is ignored.
   */
  lemma RemovalOfTrackedSourceOnly(m: TaskModel, ev: SubscriptionEvent)
    requires Inv(m) && m.phase.Waiting? && m.sourceIndex.Some?
    ensures var n := Step(m, EventArrives(ev));
      && (n.phase.Searching? <==> ev.op == Removed && ev.index == m.sourceIndex.value)
      && (n.phase.Searching? ==> n.moduleId.None? && n.unloads == m.unloads)
      && (!n.phase.Searching? ==> n == m)
  {
  }

  /** While waiting with no source, only a New notification (of any index) restarts the search. */
  lemma NewWhileIdleOnly(m: TaskModel, ev: SubscriptionEvent)
    requires Inv(m) && m.phase.Waiting? && m.sourceIndex.None?
    ensures var n := Step(m, EventArrives(ev));
      && (n.phase.Searching? <==> ev.op == New)
      && (!n.phase.Searching? ==> n == m)
  {
  }

  /**
   * The shutdown signal, in either loop, ends the audio task: the tracked module (and
   * only it) is unloaded, a failed unload is logged, and the acknowledgement is
   * sent whether or not the unload succeeded.
   */
  lemma ShutdownUnloadsTracked(m: TaskModel, unloadOk: bool)
    requires Inv(m) && (m.phase.Searching? || m.phase.Waiting?)
    ensures var n := Step(m, ShutdownSignal(unloadOk));
      && n.phase == Finished(ShutDown) && n.acknowledged
      && n.unloads == (if m.moduleId.Some? then [m.moduleId.value] else [])
      && n.failedUnloads == (if m.moduleId.Some? && !unloadOk then 1 else 0)
  {
  }

  /** Since `find_and_load_module` never fails, its outcome never takes the error arm. */
  lemma SearchNeverRetries(m: TaskModel, sourceList: seq<ListResult<SourceInfo>>, loadedId: uint32)
    requires Inv(m) && m.phase.Searching?
    ensures Step(m, SearchDone(FindAndLoadModule(sourceList, loadedId).outcome)).phase.Waiting?
  {
    FindAndLoadModuleChoosesFirst(sourceList, loadedId);
  }

  /** A webcam source with index 7, as libpulse lists it (the property value ends in NUL). */
  function WebcamAt7(): seq<ListResult<SourceInfo>> {
    [Item(SourceInfo(Some("mic"), 3, None)), Item(SourceInfo(Some("cam"), 7, Some(WEBCAM + [0]))), End]
  }

  /** Of `WebcamAt7`, only the second entry is kept. */
  lemma CollectWebcamAt7()
    ensures Collect(WebcamAt7(), WebcamSource) == [(Some("cam"), 7)]
  {
    var l := WebcamAt7();
    assert WebcamSource(l[0].item) == None by {
      WebcamSourceIff(l[0].item);
    }
    assert WebcamSource(l[1].item) == Some((Some("cam"), 7)) by {
      WebcamSourceIff(l[1].item);
    }
    assert Collect(l[1..][1..], WebcamSource) == [] by {
      assert l[1..][1..][1..] == [];
    }
    assert Collect(l[1..], WebcamSource) == [(Some("cam"), 7)];
  }

  /** The search over `WebcamAt7` loads the loopback module for source 7 and reports it with module id 42. */
  lemma FindsWebcamAt7()
    ensures FindAndLoadModule(WebcamAt7(), 42).request == Some(LoadRequest("module-loopback", "source=7 source_dont_move=true"))
    ensures FindAndLoadModule(WebcamAt7(), 42).outcome == Ok(Some((42, 7)))
  {
    CollectWebcamAt7();
    LoopbackArgumentFor7();
  }

  lemma LoopbackArgumentFor7()
    ensures LoopbackArgument(7) == "source=7 source_dont_move=true"
  {
    assert DecimalString(7) == "7";
  }

  /**
   * A webcam source 7 is found, the loopback module (id 42) is loaded for it,
   * and its removal sends the audio task back to searching with no module tracked
   * and no unload requested.
   */
  lemma {:induction false} LoadThenRemoval()
    ensures var s := FindAndLoadModule(WebcamAt7(), 42);
      && s.request == Some(LoadRequest("module-loopback", "source=7 source_dont_move=true"))
      && var n := Run(Init(), [ConnectDone(true), SearchDone(s.outcome), EventArrives(SubscriptionEvent(Source, Removed, 7))]);
      && n.phase.Searching? && n.moduleId.None? && n.unloads == []
  {
    FindsWebcamAt7();
    var inputs := [ConnectDone(true), SearchDone(Ok(Some((42, 7)))), EventArrives(SubscriptionEvent(Source, Removed, 7))];
    RunThree(Init(), inputs);
  }

  /** Shutting down while module 42 is loaded unloads exactly it and acknowledges, even when the unload fails. */
  lemma {:induction false} ShutdownWhileLoaded(unloadOk: bool)
    ensures var n := Run(Init(), [ConnectDone(true), SearchDone(Ok(Some((42, 7)))), ShutdownSignal(unloadOk)]);
      && n.phase == Finished(ShutDown) && n.unloads == [42] && n.acknowledged
  {
    var inputs := [ConnectDone(true), SearchDone(Ok(Some((42, 7)))), ShutdownSignal(unloadOk)];
    RunThree(Init(), inputs);
  }

  /** A three-input trace is three steps. */
  lemma RunThree(m: TaskModel, inputs: seq<Input>)
    requires |inputs| == 3
    ensures Run(m, inputs) == Step(Step(Step(m, inputs[0]), inputs[1]), inputs[2])
  {
    var m1 := Step(m, inputs[0]);
    var m2 := Step(m1, inputs[1]);
    assert inputs[1..][0] == inputs[1] && inputs[1..][1..][0] == inputs[2];
    assert Run(m2, inputs[1..][1..]) == Run(Step(m2, inputs[2]), inputs[1..][1..][1..]);
    assert inputs[1..][1..][1..] == [];
  }

  /** `Run` over notifications only, oldest first. */
  function RunEvents(m: TaskModel, evs: seq<SubscriptionEvent>): TaskModel
    decreases |evs|
  {
    if evs == [] then m else Step(RunEvents(m, evs[..|evs| - 1]), EventArrives(evs[|evs| - 1]))
  }

  /** The audio task, with the fields its future captures. */
  class AudioTask {
    var phase: Phase
    var moduleId: Option<uint32>
    var sourceIndex: Option<uint32>
    var unloads: seq<uint32>
    var failedUnloads: nat
    var searchErrors: nat
    var acknowledged: bool

    ghost function Model(): TaskModel
      reads this
    {
      TaskModel(phase, moduleId, sourceIndex, unloads, failedUnloads, searchErrors, acknowledged)
    }

    constructor ()
      ensures Model() == Init()
    {
      phase := Opening;
      moduleId := None;
      sourceIndex := None;
      unloads := [];
      failedUnloads := 0;
      searchErrors := 0;
      acknowledged := false;
    }

    /** `connect(..).await?` finishing. */
    method Connect(ok: bool)
      requires phase.Opening?
      modifies this
      ensures Model() == OnConnect(old(Model()), ok)
    {
      if ok {
        phase := Searching;
      } else {
        phase := Finished(ConnectionLost);
      }
    }

    /** One pass of the search loop: take the outcome of `find_and_load_module`. */
    method Search(outcome: Result<Option<(uint32, uint32)>, string>)
      requires phase.Searching?
      modifies this
      ensures Model() == OnSearch(old(Model()), outcome)
    {
      match outcome {
        case Ok(Some(found)) =>
          moduleId := Some(found.0);
          sourceIndex := Some(found.1);
          phase := Waiting;
        case Ok(None) =>
          sourceIndex := None;
          phase := Waiting;
        case Err(_) =>
          searchErrors := searchErrors + 1;
      }
    }

    /**
     * The wait loop: take queued notifications oldest first until one ends the
     * wait; with the queue empty and the wait not over, the audio task is pending.
     */
    method Wait(feed: EventFeed) returns (consumed: nat)
      requires phase.Waiting? && feed.Valid()
      modifies this, feed
      ensures feed.Valid()
      ensures consumed <= |old(feed.queue)| && feed.queue == old(feed.queue)[consumed..]
      ensures Model() == RunEvents(old(Model()), old(feed.queue)[..consumed])
      ensures phase.Waiting? ==> consumed == |old(feed.queue)|
      ensures !phase.Waiting? ==>
        phase.Searching? && consumed > 0 && RunEvents(old(Model()), old(feed.queue)[..consumed - 1]).phase.Waiting?
    {
      ghost var m0 := Model();
      ghost var q0 := feed.queue;
      consumed := 0;
      while phase.Waiting? && feed.queue != []
        invariant feed.Valid()
        invariant consumed <= |q0| && feed.queue == q0[consumed..]
        invariant Model() == RunEvents(m0, q0[..consumed])
        invariant phase.Waiting? || phase.Searching?
        invariant !phase.Waiting? ==> consumed > 0 && RunEvents(m0, q0[..consumed - 1]).phase.Waiting?
        decreases |feed.queue|
      {
        var next := feed.Next();
        assert q0[..consumed + 1][..consumed] == q0[..consumed];
        HandleEvent(next.value);
        consumed := consumed + 1;
      }
    }

    /** One notification, taken while waiting. */
    method HandleEvent(ev: SubscriptionEvent)
      requires phase.Waiting?
      modifies this
      ensures Model() == OnEvent(old(Model()), ev)
    {
      if ev.op == New && sourceIndex.None? {
        phase := Searching;
      } else if ev.op == Removed && sourceIndex == Some(ev.index) {
        moduleId := None;
        phase := Searching;
      }
    }

    /** The shutdown signal won the biased select: unload what is tracked, then acknowledge. */
    method Shutdown(unloadOk: bool)
      requires phase.Searching? || phase.Waiting?
      modifies this
      ensures Model() == OnShutdown(old(Model()), unloadOk)
    {
      if moduleId.Some? {
        unloads := unloads + [moduleId.value];
        if !unloadOk {
          failedUnloads := failedUnloads + 1;
        }
      }
      acknowledged := true;
      phase := Finished(ShutDown);
    }
  }
}
