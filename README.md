# capturecard-display, modelled in Dafny

capturecard-display shows a USB capture card full-screen. It loops the card's
audio back through PulseAudio and keeps a small settings window. This project
models the program's logic and proves properties about it. Calls into libpulse,
libusb/uvc, egui and the operating system become inputs of the model.

- **Audio (src/audio.rs)**
  - `PaRuntime` drives one task on the libpulse main loop. A deferred "poll"
    event polls the audio task. A self-pipe waker and an I/O event re-enable that
    event. A finished task quits the loop with 0; a panic quits it with 111.
    Modules `PaRuntimes` and `ReturnSlots`.
  - `ReturnSlot` is a single-assignment cell; `wake_on_op` is its poll step.
  - `get_source_info_list` and `find_and_load_module` pick the first source
    whose form factor is "webcam" and load `module-loopback` for it. Module
    `SourceSelection`.
  - `subscribe` feeds source notifications into a channel of capacity 32
    that drops them when it is full. Module `Subscription`.
  - The `audio_loop` task connects, searches, waits for the notification
    that makes a new search worthwhile, and on shutdown unloads the module it
    tracks and acknowledges. Module `Orchestration`.
- **Video (src/video.rs)**: the stream-format chooser and its preference
  list, the RGB-to-RGBA fill of `handle_frame`, the event decision that ends a
  streaming session, and the hotplug filter. Module `Video`.
- **Display window (src/main.rs)**: the once-only window title, the close
  condition, and the `HoverState` machine that hides the cursor. Module
  `Display`.
- **Settings (src/settings.rs)**: the optional-`u16` text fields, the device
  id they describe, loading from and saving to eframe's key-value storage, and
  the settings window's open/close/save logic. Module `AppSettings`.
- Shared: `Prelude` (Option, Result, integer widths), `Decimal` (Rust's
  decimal formatting and unsigned `FromStr`), `Device` (`DeviceId`).

Each class keeps the fields the source updates in place. A ghost `Model()`
gathers them into a value, and each method ties the new `Model()` to a pure
step function of the old one. The lemmas are stated about those step
functions and about traces of them.

Some of the code's behaviour is easy to misread; the model follows the code:

- When the tracked source is removed, the audio task only sets `module_id` to
  `None` (src/audio.rs:40-43). It does not unload the module. The module was
  loaded with `source_dont_move=true`, so the server drops it together with
  its source.
- `find_and_load_module` (src/audio.rs:69-101) has no error path. It always
  returns `Ok`, so the audio task's "error setting up audio" arm never runs
  (`Orchestration.SearchNeverRetries`). `load_module` returns whatever id its
  callback passes, without checking it.
- `ReturnSlot::wait` (src/audio.rs:190-196) resolves as soon as the cell holds
  a value. The exclusive-ownership check (`Rc::try_unwrap`) happens only in
  `get_source_info_list`.
- The wake pipe's drain loop does not always drain without blocking; see
  Findings.

## Model

| member | source | states |
|---|---|---|
| Decimal.DecimalString | src/audio.rs:96 | `format!("{n}")` yields a non-empty digit string, with no leading zero, whose value is `n` |
| Decimal.AccumulateDigits | src/settings.rs:121-123 | the digit loop of unsigned `from_str`: a non-digit is reported before an overflow at the same position; its meaning is stated by `AccumulateDigitsCorrect` |
| Decimal.ParseUnsigned | src/settings.rs:121-123 | unsigned `from_str` with a maximum: empty text is `Empty`, one leading `+` is skipped, a lone sign is an invalid digit; its meaning is stated by `ParseUnsignedCorrect` |
| Decimal.AccumulateDigitsCorrect | src/settings.rs:121-123 | Rust's unsigned digit loop succeeds exactly on digit strings whose value fits, and yields that value; its errors are never `Empty` |
| Decimal.ParseUnsignedCorrect | src/settings.rs:121-123 | `u16::from_str` succeeds exactly when the text, after one optional `+`, is a non-empty digit string of value at most the maximum; it fails with `Empty` exactly on empty text |
| Decimal.DecimalRoundTrip | src/settings.rs:121-123 | parsing the decimal text of any value that fits gives the value back |
| Decimal.DigitsValuePrefix | src/settings.rs:121-123 | a prefix of a digit string never denotes more than the whole string |
| ReturnSlots.WakeOnOpPoll | src/audio.rs:210-228 | a poll resolves exactly when `f` is ready, with its value, and clears the state callback; it panics exactly when `f` is pending and the operation is cancelled; otherwise it installs a waking callback and suspends |
| ReturnSlots.Operation.PollWith | src/audio.rs:214-225 | the closure's effect on the operation's state callback and its result agree with `WakeOnOpPoll`; the operation's state is untouched |
| ReturnSlots.ReturnSlot.constructor | src/audio.rs:178-182 | a new slot is empty |
| ReturnSlots.ReturnSlot.Callback | src/audio.rs:183-189 | the callback is new, holds this slot, and is still armed |
| ReturnSlots.ReturnSlot.WaitPoll | src/audio.rs:190-196 | one poll of `wait` takes the cell's value (leaving it empty) and makes the `wake_on_op` step on it |
| ReturnSlots.SlotCallback.constructor | src/audio.rs:184 | the callback starts armed, holding the slot, with nothing logged |
| ReturnSlots.SlotCallback.Call | src/audio.rs:184-187 | the first invocation stores its value and disarms; every later one only logs |
| ReturnSlots.Deliver | src/audio.rs:184-187 | one invocation of the callback on the slot's value: stores while armed, logs afterwards; stated over traces by `DeliverAllKeepsFirst` |
| ReturnSlots.WaitStep | src/audio.rs:190-196 | a poll of `wait` empties the cell and resolves exactly when the cell held a value, to that value |
| ReturnSlots.StoredValueResolves | src/audio.rs:183-196 | once a value is stored, the next poll resolves to it whatever later invocations do |
| ReturnSlots.WaitResolvesFirstWrite | src/audio.rs:183-196 | from a fresh slot, `wait` resolves only to the first invocation's value; it panics only on a cancellation seen before any value; it stays pending exactly when no poll followed an invocation and no cancellation came first |
| ReturnSlots.ShiftPastPoll | src/audio.rs:190-196 | a leading poll that is not cancelled changes none of the trace properties |
| ReturnSlots.DeliverAllKeepsFirst | src/audio.rs:183-189 | after any number of invocations the cell holds the first value; the callback is armed exactly when none happened; every invocation after the first is logged once |
| ReturnSlots.DeliveredOnlyLogs | src/audio.rs:184-187 | a disarmed callback only counts further invocations |
| PaRuntimes.RunKeepsConsistent | src/audio.rs:270-287 | over any sequence of loop events a result is stored at most once, exactly when the loop was told to quit, with 0 for a value and 111 for a panic; after that the stored result and exit code never change |
| PaRuntimes.FireStep | src/audio.rs:270-287 | the deferred event's closure on the runtime's state; `RunKeepsConsistent` and `ReadyReturnsPanicResumes` state what it keeps and stores |
| PaRuntimes.WakeStep | src/audio.rs:238-240 | `wake_by_ref`'s write of one byte; stated by `WakesFillPipe` |
| PaRuntimes.ReadableStep | src/audio.rs:289-297 | the I/O event with the corrected drain (see Findings): empty the pipe, enable the poll event; stated by `WakesCoalesce` |
| PaRuntimes.LoopStep | src/audio.rs:262-297 | the main loop dispatches the poll event only while enabled, the I/O event only while bytes are pending, and nothing after `quit`; stated by `RunKeepsConsistent` |
| PaRuntimes.RunLoop | src/audio.rs:299 | `looop.run()` over a sequence of events; stated by `RunKeepsConsistent` and `RunLoopAppend` |
| PaRuntimes.WakesFillPipe | src/audio.rs:238-240 | each successful wake adds one byte to the pipe |
| PaRuntimes.RunLoopAppend | src/audio.rs:262-297 | running two event sequences one after the other is running their concatenation |
| PaRuntimes.WakesCoalesce | src/audio.rs:289-297 | any number (at least one) of wakes while parked re-enables the poll event once, and the audio task is polled once, not once per wake |
| PaRuntimes.ReadyReturnsPanicResumes | src/audio.rs:270-307 | a ready poll quits with 0 and `run` returns its value; a panicking poll quits with 111 and `run` resumes its payload |
| PaRuntimes.Finish | src/audio.rs:299-307 | `run` returns a value exactly when the loop quit with 0 |
| PaRuntimes.DrainAsWrittenBlocks | src/audio.rs:293-294 | the wake handler's drain loop as written on the blocking reader: whether it ends up blocked on an empty pipe; stated by `DrainAsWrittenBlocksOnMultiples` |
| PaRuntimes.DrainAsWrittenBlocksOnMultiples | src/audio.rs:293-294 | as written, the drain loop blocks the loop thread exactly when the pending byte count is a positive multiple of 16 |
| PaRuntimes.ReadNonBlocking | src/audio.rs:293-294 | a non-blocking read returns between 1 and 16 of the pending bytes, or would block when none are pending |
| PaRuntimes.DrainWakePipe | src/audio.rs:293-294 | corrected drain (see Findings): it always empties the pipe and returns, after `pending / 16 + 1` reads |
| PaRuntimes.PaRuntime.constructor | src/audio.rs:249-258 | the pipe starts empty, the poll event enabled, and nothing stored |
| PaRuntimes.PaRuntime.Wake | src/audio.rs:238-240 | a wake writes one byte unless the write fails |
| PaRuntimes.PaRuntime.FirePoll | src/audio.rs:270-287 | the poll event disables itself, polls once, and stores the result and quits on completion or panic, keeping the invariant |
| PaRuntimes.PaRuntime.OnWakeReadable | src/audio.rs:289-297 | with the corrected drain (see Findings), the I/O event empties the pipe and re-enables the poll event |
| PaRuntimes.PaRuntime.Finish | src/audio.rs:299-307 | after the loop stops, `run` returns the stored value or resumes the stored panic, matching the exit code |
| SourceSelection.WebcamSourceIff | src/audio.rs:72-84 | a source qualifies exactly when its form factor is "webcam", with or without one trailing NUL, and then yields its name and index |
| SourceSelection.WebcamSource | src/audio.rs:72-84 | the filter closure of `find_and_load_module`; stated by `WebcamSourceIff` |
| SourceSelection.Collect | src/audio.rs:128-153 | `get_source_info_list`: the filter's values in callback order; stated by `CollectAppend`, `CollectEmptyIff` and `CollectFirst` |
| SourceSelection.LoopbackArgument | src/audio.rs:96 | the loopback module's argument text; stated by `LoopbackArgumentNamesSource` |
| SourceSelection.FindAndLoadModule | src/audio.rs:69-101 | `find_and_load_module` given the list callbacks and the id the load resolves to; stated by `FindAndLoadModuleChoosesFirst` |
| SourceSelection.CollectAppend | src/audio.rs:137-143 | the list callback keeps items in callback order |
| SourceSelection.CollectEmptyIff | src/audio.rs:137-143 | the collected list is empty exactly when the filter keeps no item |
| SourceSelection.CollectFirst | src/audio.rs:85-91 | the first collected value comes from the first item the filter keeps |
| SourceSelection.KeepsShift | src/audio.rs:137-143 | whether an item is kept does not depend on its position |
| SourceSelection.LoopbackArgumentNamesSource | src/audio.rs:93-97 | the loopback argument is `source=`, the decimal index, then ` source_dont_move=true`, and the middle parses back to the index |
| SourceSelection.FindAndLoadModuleChoosesFirst | src/audio.rs:69-101 | the search never fails; it loads nothing and reports `None` exactly when no source qualifies; otherwise it loads `module-loopback` for the first qualifying source and reports the loaded id and that source's index |
| Subscription.BurstKeepsOldest | src/audio.rs:166-170 | after a burst of notifications the queue holds the earlier queue and then the oldest notifications of the burst, up to 32; the rest are dropped |
| Subscription.TrySend | src/audio.rs:167-170 | one `try_send` into the bounded channel; stated by `BurstKeepsOldest` and `EventFeed.Notify` |
| Subscription.EventFeed.constructor | src/audio.rs:166 | the channel starts empty |
| Subscription.EventFeed.Notify | src/audio.rs:167-170 | the callback appends the notification when fewer than 32 are queued, drops it otherwise, and reports which |
| Subscription.EventFeed.Next | src/audio.rs:37 | the audio task takes the oldest queued notification, or finds none |
| Orchestration.PollConnect | src/audio.rs:108-123 | `connect` finishes with success exactly on `Ready` and with failure exactly on `Failed` or `Terminated`; it installs a state callback exactly when it keeps waiting |
| Orchestration.Init | src/audio.rs:21 | the future's state before `connect`: no module tracked (`module_id = None`) and no source |
| Orchestration.OnConnect | src/audio.rs:19 | `connect(...).await?`: success moves on to the search, failure ends the future; stated by `RunKeepsInv` |
| Orchestration.OnSearch | src/audio.rs:25-34 | the match on `find_and_load_module`'s outcome; stated by `SearchOutcomes` |
| Orchestration.OnEvent | src/audio.rs:38-45 | the match on a notification's operation; stated by `NewWhileIdleOnly` and `RemovalOfTrackedSourceOnly` |
| Orchestration.OnShutdown | src/audio.rs:58-63 | unload the tracked module, then attempt the done signal; stated by `ShutdownUnloadsTracked` |
| Orchestration.Step | src/audio.rs:18-65 | one input to `audio_loop`'s future, taken only in the loop that receives it; stated by `StepKeepsInv`, `SearchOutcomes`, `RemovalOfTrackedSourceOnly`, `NewWhileIdleOnly` and `ShutdownUnloadsTracked` |
| Orchestration.Run | src/audio.rs:18-65 | `audio_loop`'s future over a sequence of inputs; stated by `RunKeepsInv` |
| Orchestration.StepKeepsInv | src/audio.rs:18-65 | every step keeps the audio task invariant |
| Orchestration.RunKeepsInv | src/audio.rs:18-65 | over any trace, no module is tracked while searching; while waiting, a module is tracked exactly when the wait concerns a source; nothing is unloaded or acknowledged before the end; shutdown unloads at most one module and acknowledges; a finished task never changes |
| Orchestration.SearchOutcomes | src/audio.rs:24-35 | a search error is counted and the search repeats; `None` waits with no source; a found source waits on it, tracking the loaded module id |
| Orchestration.RemovalOfTrackedSourceOnly | src/audio.rs:36-46 | while waiting on a source, exactly a `Removed` event with its index ends the wait; the module is then forgotten without an unload; every other event leaves the audio task unchanged |
| Orchestration.NewWhileIdleOnly | src/audio.rs:38-39 | while waiting with no source, exactly a `New` event restarts the search; every other event leaves the audio task unchanged |
| Orchestration.ShutdownUnloadsTracked | src/audio.rs:50-63 | shutdown from either loop unloads exactly the tracked module, if any, counts a failed unload, and always acknowledges |
| Orchestration.SearchNeverRetries | src/audio.rs:24-35 | the search's real outcome always leads to waiting, so the error arm never runs |
| Orchestration.LoadThenRemoval | src/audio.rs:18-46 | webcam source 7 gets `module-loopback` with `source=7 source_dont_move=true`; its removal returns the audio task to searching with no module tracked and no unload |
| Orchestration.ShutdownWhileLoaded | src/audio.rs:50-63 | shutdown while module 42 is loaded unloads exactly 42 and acknowledges, whether or not the unload succeeds |
| Orchestration.AudioTask.constructor | src/audio.rs:18-21 | the audio task starts before `connect`, tracking nothing |
| Orchestration.AudioTask.Connect | src/audio.rs:19 | a connection moves on to searching; a failure ends the audio task |
| Orchestration.AudioTask.Search | src/audio.rs:24-35 | the search loop's match on the outcome |
| Orchestration.AudioTask.Wait | src/audio.rs:36-46 | the wait loop takes queued notifications oldest first and stops right after the first one that ends the wait; otherwise it empties the queue and stays waiting |
| Orchestration.AudioTask.HandleEvent | src/audio.rs:37-45 | one notification's effect while waiting |
| Orchestration.AudioTask.Shutdown | src/audio.rs:58-63 | unload the tracked module, then acknowledge and finish |
| Video.Decide | src/video.rs:141-151 | the chooser returns one of its two arguments |
| Video.ByFps | src/video.rs:53 | the first preference: higher frame rate; stated by `HigherFpsWins` |
| Video.ByUncompressed | src/video.rs:54 | the second preference: uncompressed first; stated by `UncompressedBreaksFpsTie` |
| Video.ByRatioAsWritten | src/video.rs:55-59 | the third preference as written; stated by `AsWrittenPrefersWider` |
| Video.FirstDecisive | src/video.rs:143-149 | the first preference that tells the formats apart; all earlier ones are `Equal` |
| Video.DecideByFirstDecisive | src/video.rs:143-150 | the first non-`Equal` preference decides: `b` on `Less`, `a` on `Greater`; `a` when all are `Equal` |
| Video.ChoosePreferred | src/video.rs:142-151 | the chooser loop returns exactly what the first decisive preference selects |
| Video.HigherFpsWins | src/video.rs:52-53 | in the list as written and in the corrected one, a higher frame rate wins, whatever else differs |
| Video.UncompressedBreaksFpsTie | src/video.rs:52-54 | in the list as written and in the corrected one, at equal frame rates an uncompressed format beats a compressed one |
| Video.NearestRatioBreaksRemainingTie | src/video.rs:55-59 | with the ratio preference corrected, when rate and compression tie the format nearer 16:9 wins, and `a` on a tie |
| Video.AsWrittenPrefersWider | src/video.rs:55-59 | as written, the ratio preference ranks formats by aspect ratio alone, so the wider format wins |
| Video.AsWrittenChoosesUltrawide | src/video.rs:55-59 | as written, 2560x1080 beats an exactly 16:9 1920x1080 at the same rate and compression; the corrected list picks 1920x1080 |
| Video.RgbaPixels | src/video.rs:210-222 | the buffer has exactly width*height pixels; pixel i is the opaque colour of the i-th complete RGB triple, and transparent where no complete triple is left |
| Video.EguiTexture.constructor | src/video.rs:199-203 | a texture with no frame shown |
| Video.EguiTexture.SetTexture | src/video.rs:205-208 | the image is replaced and one repaint is requested |
| Video.EguiTexture.HandleFrame | src/video.rs:209-228 | a failed RGB conversion changes nothing; otherwise the texture shows a width x height image of the frame's pixels and one repaint is requested |
| Video.GoStep | src/video.rs:168-186 | the selector's two receive arms: a disconnection ends with forget, a new device id ends with switch exactly when it differs; stated by `GoRunEndsAtFirstDecisive` |
| Video.GoRun | src/video.rs:167-195 | `go`'s event loop over a sequence of events; stated by `GoRunEndsAtFirstDecisive` |
| Video.HotplugFilterOf | src/video.rs:103-111 | the hotplug builder's filter for a device id; stated by `HotplugFilterMatches` |
| Video.GoRunEndsAtFirstDecisive | src/video.rs:167-195 | a session ends at the first disconnection or new device id and never earlier; a disconnection forgets the device without switching; a new id replaces the current one and switches exactly when it differs; other events change nothing |
| Video.HotplugFilterMatches | src/video.rs:103-111 | hotplug enumerates existing devices and matches each of vendor and product id only when the device id has it; the serial number plays no part |
| Video.CameraActor.constructor | src/video.rs:27-41 | the actor starts with the given device id and its hotplug filter |
| Video.CameraActor.Go | src/video.rs:167-195 | `go`'s event loop takes events until a session ends, updating the device id as the event decision says |
| Video.CameraActor.EndSession | src/video.rs:85-98 | after a session the example image is shown again, and the hotplug filter is re-registered exactly when the device id switched |
| Display.StartHoveringIff | src/main.rs:103-107 | from `NotHovering`, hovering starts now exactly when the pointer is on the image and still |
| Display.LeavingResets | src/main.rs:108-110 | once hovering or hidden, leaving the image or moving resets to `NotHovering` and shows the cursor |
| Display.HidesAfterDelay | src/main.rs:111-115 | hovering still becomes `Hidden` once three seconds have elapsed, and is otherwise unchanged |
| Display.CursorHiddenIff | src/main.rs:108-116 | the cursor is hidden in a frame exactly when the state is `Hidden` and the pointer rests on the image, which keeps it `Hidden` |
| Display.HoverStep | src/main.rs:102-117 | one frame's `match self.hover_state`; stated by `StartHoveringIff`, `LeavingResets`, `HidesAfterDelay`, `CursorHiddenIff` and `HoverHistory` |
| Display.HoverHistory | src/main.rs:102-117 | from `NotHovering`, any state but `NotHovering` began at a frame where the pointer was on the image and still, and it has rested there since; `Hidden` comes only after three seconds of that rest |
| Display.TitleOnceCloseIff | src/main.rs:96-101 | the window title is applied in the first frame only; each frame asks to close exactly when Ctrl-C was seen or Escape pressed |
| Display.DisplayStep | src/main.rs:83-118 | one call of `update` on the window's state; stated by `TitleOnceCloseIff` |
| Display.CCDisplay.constructor | src/main.rs:72-78 | the display starts with the command-line title and `NotHovering` |
| Display.CCDisplay.Update | src/main.rs:83-118 | `update` takes the title, computes the close request, and makes the hover step |
| AppSettings.ParseFieldIff | src/settings.rs:121-123 | an empty field is `Ok(None)` and only an empty one; a non-empty field parses exactly when it is a valid `u16` text, to that value |
| AppSettings.ParseField | src/settings.rs:121-123 | `SettingStringField::parse`; stated by `ParseFieldIff` and `FieldRoundTrip` |
| AppSettings.FieldRoundTrip | src/settings.rs:121-123 | any optional id written into a field parses back to itself |
| AppSettings.DeviceIdOfIff | src/settings.rs:36-42 | `deviceid` is `None` exactly when an id field fails to parse; otherwise it carries the parsed ids, and its serial number is absent exactly when the serial field is empty |
| AppSettings.DeviceIdOf | src/settings.rs:36-42 | `Settings::deviceid`; stated by `DeviceIdOfIff` and `DeviceIdRoundTrip` |
| AppSettings.DeviceIdRoundTrip | src/settings.rs:36-42 | every device id whose serial number is not empty text is described exactly by the settings that show it |
| AppSettings.FromEmptyStorage | src/settings.rs:14-29 | empty storage gives the title "CCDisplay", empty fields, and a device id with no constraints |
| AppSettings.FromStorage | src/settings.rs:14-29 | `Settings::from_storage`; stated by `FromEmptyStorage` and `SaveLoadRoundTrip` |
| AppSettings.SaveTo | src/settings.rs:30-35 | `Settings::save` on the storage's map; stated by `SaveLoadRoundTrip` |
| AppSettings.SaveLoadRoundTrip | src/settings.rs:14-35 | loading what `save` wrote gives the same settings; saving writes the four keys and leaves every other key unchanged |
| AppSettings.EframeStorage.SetString | src/settings.rs:31-34 | one key is set, nothing else changes |
| AppSettings.Save | src/settings.rs:30-35 | the storage after `save` is the old storage with the four keys written |
| AppSettings.OpenCloseKeys | src/settings.rs:65-73 | Escape always leaves the window closed; without Escape the window is shown exactly when Alt+S and the previous open state differ |
| AppSettings.HiddenWindowInert | src/settings.rs:74-78 | a window that is not shown keeps its fields and storage and sends nothing |
| AppSettings.SaveSendsAndCloses | src/settings.rs:85-109 | in a shown window, a device id is sent exactly when both id fields parse and Save is clicked; it carries the parsed ids and the edited serial number; the edited settings are saved and the window closes; otherwise storage is untouched and the close button alone closes the window |
| AppSettings.WindowStep | src/settings.rs:61-110 | one call of `SettingsWindow::update`; stated by `OpenCloseKeys`, `HiddenWindowInert`, `SaveSendsAndCloses`, `TitleOnFirstFrameOnly` and `NoTitleAfterFirst` |
| AppSettings.TitleOnFirstFrameOnly | src/settings.rs:62-64 | a new window sets the stored title in its first frame and never again |
| AppSettings.NoTitleAfterFirst | src/settings.rs:62-64 | once rendered, the window never sets the title again |
| AppSettings.SettingsWindow.constructor | src/settings.rs:53-60 | a new window is closed and not yet rendered |
| AppSettings.SettingsWindow.Update | src/settings.rs:61-110 | `update` makes exactly the window step and appends the sent device id, if any, to the channel |

## Left out

- libpulse, libusb/uvc, egui/eframe, clap and the `ctrlc` handler are not modelled; what they return becomes an input. This covers the connection state, the source list, the module id `load_module` yields, the unload result, USB updates, `frame.to_rgb`, key presses, pointer state and the clock.
- Threads and channels are not modelled as concurrency. This covers the camera actor's threads, the libusb event thread, the main thread's shutdown rendezvous (src/main.rs:25-38) and the race in `select_biased!`. The shutdown signal is an input that wins in either loop.
- Orchestration.OnShutdown: `acknowledged` records that `done_ch.0.try_send(())` was attempted (src/audio.rs:63); the send's result is discarded by the source, so delivery of the acknowledgement is not modelled.
- `PaRuntime::make_context` and the `unwrap`s on creating the pipe, the main loop and the context are not modelled (they panic on OS errors).
- PaRuntimes.PaRuntime.Wake: a wake whose pipe write fails (the read end was closed once `PaRuntime` is dropped, giving EPIPE) is an input flag. The writer is blocking, so on a full pipe the waking thread would block rather than fail; pipe capacity and that blocked writer are not modelled.
- PaRuntimes.PaRuntime.OnWakeReadable: the runtime model (`ReadableStep`, and with it `RunKeepsConsistent` and `WakesCoalesce`) drains with the corrected non-blocking drain `DrainWakePipe`; the drain as written can block the loop thread (see Findings), which the runtime model does not capture.
- ReturnSlots.ReturnSlot.WaitPoll: the `panic!("cancelled")` is a `Panicked` step; unwinding is modelled only as the runtime's stored panic.
- `load_module` and `unload_module` (src/audio.rs:199-208) are a `ReturnSlot` wait around a libpulse request. The model covers them through `ReturnSlots`, and their results are inputs of `Orchestration`.
- `get_source_info_list` completes once libpulse drops the list callback (`Rc::try_unwrap`); the model takes the complete callback sequence.
- `subscribe`'s `facility.unwrap()` / `op.unwrap()` on unknown values and `events.next().await.unwrap()` on a closed stream are not modelled. The callback keeps the sender for the context's lifetime.
- A task that is shut down while a load is in flight leaves the new module loaded and untracked. This is not modelled because the load is an input.
- `audio_loop` panics when `connect` fails (`.unwrap()` on `run`'s result); the model ends in `Finished(ConnectionLost)`.
- Video.ByRatioAsWritten: the source compares `f32` values; the model compares exact rationals. A zero height gives ratio 0, where `f32` gives infinity or NaN.
- Video.ChoosePreferred: uvc's `get_preferred_format` applies the chooser across all formats a device offers; the model covers the pairwise closure only.
- Video.FrameFormat: uvc's compressed formats are told apart only by a code.
- `CameraActor::run`'s outer loop is modelled only by `EndSession`. Not modelled: the wait for `Connected`, the 500 ms sleep after an error, and `std::mem::forget` of the device handle (the exit records `forgetDevice`).
- src/main.rs:61-67 builds a `CameraActor` with fields that do not match src/video.rs:18-25; the two files come from different revisions. Each is modelled on its own terms. `crate::DeviceId` is not part of the shown files; its shape is taken from its uses.
- `DisplaySizeComputer` (src/main.rs:141-161) is floating-point layout and is not modelled.
- Display.CCDisplay.Update: egui's `is_still` and `is_moving` are independent inputs. Time is a natural number of nanoseconds, and `elapsed` saturates at zero.
- `SettingStringField::show`'s red text and error label, and the window's widgets, are rendering only.
- AppSettings.SettingsWindow.Update: `frame.storage_mut().unwrap()` is assumed to find storage. The text edits of a frame are its `edited` input.

## Findings

| source | as written | input that shows it | evidently intended | confidence | as-written member | corrected member |
|---|---|---|---|---|---|---|
| src/audio.rs:293-294 | the drain loop reads again after every full 16-byte read from the blocking `os_pipe` reader, and a read of an empty pipe blocks | 16 bytes pending (16 wakes before one drain): one full read, then a read that blocks the main-loop thread until another thread writes | drain every pending byte without blocking, then re-enable the poll event | medium; not executed | PaRuntimes.DrainAsWrittenBlocksOnMultiples | PaRuntimes.DrainWakePipe |
| src/video.rs:55-59 | the ratio preference is `Reverse` of the signed difference `16/9 - width/height`, which ranks formats by aspect ratio alone, so the widest wins | 2560x1080 and 1920x1080, both 60 fps and uncompressed: 2560x1080 is chosen although 1920x1080 is exactly 16:9 | prefer the format whose aspect ratio is nearest 16:9 | medium; not executed | Video.AsWrittenChoosesUltrawide | Video.NearestRatioBreaksRemainingTie |
