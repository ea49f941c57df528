# Sound file player transport, modelled in Dafny

This project models the transport state machine of the JUCE sound file player component
(`SoundFilePlayerComponent`). The component loads one WAV file and plays, pauses and stops it.
It has six transport states: Starting, Playing, Stopping, Stopped, Pausing and Paused. The
Play and Stop buttons, a loop toggle, a time readout and a progress slider are driven by
those states.

The project has two files:

- `transport_model.dfy` (module `TransportModel`) describes the component as a value, `Player`.
  Each handler is a function on that value: `Enter` for `changeState`, `PlayClicked`,
  `StopClicked`, `StreamChanged`, `UpdateLoop`, `Open` and `Tick`. Transport commands (start,
  stop, set the position to 0, install a source) are recorded in a log. The release of an owned
  source is recorded in the same log, so the order of installing and releasing is visible.
  `Step` and `Run` feed sequences of events to the handlers. Clicks on a disabled button are dropped, as the widget
  toolkit does. The invariant `Inv` holds from the constructor onward; the lemmas prove it is
  preserved and derive the reachable-state properties from it.
- `sound_file_player.dfy` (module `SoundFilePlayer`) is the component as a class. Its fields
  are updated in place. The owned reader source is an object, so a successful open allocates a
  fresh one. Every handler is proved to change the class's value view, `Model()`, exactly as
  the matching function of `TransportModel` does.

The transport's answers are inputs to the handlers: "is playing", the position/length ratio,
the dragged-thumb index and the formatted time readout. The file dialog and decoder outcome is
also an input.

Behaviours of the code worth noting:

- Entering Stopped resets the slider to 0.0, but not `currentProgress_`.
- The tick divides position by length without a zero-length guard. The model takes the ratio
  as an input and does not bound it.
- Opening a file while playing does not pause first. It does not reset the loop flag or the
  progress, and it does not change the transport state.
- Stop is not enabled exactly in Playing. Entering Paused leaves the Stop button (then labelled
  "Return to beginning") enabled. `PausedKeepsStopEnabled` exhibits such a run. What does hold
  is that Stop is disabled in Stopped and enabled in Playing and Pausing (`Reachable`, `Inv`).
- Stop pressed in Stopped would be a real transition to Stopping that sends a stop command
  (`StopClicked`). It is unreachable through the buttons, because Stop is disabled in Stopped.
- A newly opened source starts non-looping (the reader source's default), whatever the loop
  toggle shows. The toggle's value reaches a source only on the next toggle click.

## Model

| member | source | states |
|---|---|---|
| TransportModel.Enter | Source/sound_file_player.cpp:69-107 | changeState ends in the requested state; requesting the current state changes nothing; it never touches the owned source, the Play enable flag, the readout or the progress value; it sends at most one start, stop or rewind command and never installs or releases a source |
| TransportModel.EnterIdempotent | Source/sound_file_player.cpp:69-72 | changeState(s) twice has the effects of one call, and changeState(current) is the identity |
| TransportModel.EnterEffects | Source/sound_file_player.cpp:74-105 | entering Stopped sets "Play"/"Stop", disables Stop, rewinds and zeroes the slider; Playing sets "Pause"/"Stop" and enables Stop; Paused sets "Resume"/"Return to beginning" and leaves Stop's flag; Starting sends exactly one start; Pausing and Stopping each send exactly one stop and change nothing else |
| TransportModel.PlayClicked | Source/sound_file_player.cpp:221-226 | Stopped or Paused go to Starting with one start command, Playing goes to Pausing with one stop command, the other states are unchanged; nothing but the state and the log changes |
| TransportModel.StopClicked | Source/sound_file_player.cpp:229-234 | Paused goes to Stopped (rewind, slider 0, Stop disabled); every other state goes to Stopping with one stop command, Stopped included; Stopping is unchanged |
| TransportModel.StreamChanged | Source/sound_file_player.cpp:120-131 | playing goes to Playing; not playing goes to Stopped from Stopping or Playing and to Paused otherwise; the notification never starts or stops the transport and rewinds it exactly when it goes to Stopped |
| TransportModel.UpdateLoop | Source/sound_file_player.cpp:110-114 | with no source nothing changes; with a source only its looping flag changes, to the given value |
| TransportModel.Open | Source/sound_file_player.cpp:196-218 | a cancelled dialog or a null reader changes nothing; a decoded file installs a new non-looping source into the transport, enables Play, then owns the new source and releases the previously owned one (in that order in the log), and leaves the state, labels, Stop flag, progress and slider alone |
| TransportModel.Tick | Source/sound_file_player.cpp:152-175 | while playing the progress takes the sampled ratio and the readout the formatted time, and the slider follows only when no thumb is dragged; when not playing the readout becomes "Stopped" in Stopping or Stopped and nothing else changes; the state, buttons, source and transport are never touched |
| TransportModel.LastSourceAppend | Source/sound_file_player.cpp:211 | the transport reads from the source of the latest setSource command |
| TransportModel.InitInv | Source/sound_file_player.cpp:13-48 | the constructed component (Stopped, "Play"/"Stop", both buttons disabled, readout "Stopped", progress and slider 0, no source) satisfies the invariant |
| TransportModel.Step | Source/sound_file_player.cpp:21-40 | the onClick wiring dispatches each event to its handler; a click on a disabled Play or Stop button (flags set at :28, :35, :78, :90, :212) is dropped and changes nothing |
| TransportModel.EnterPreservesInv | Source/sound_file_player.cpp:69-107 | changeState keeps the invariant when Starting is entered only with a source loaded and Pausing only from Playing, as the handlers do |
| TransportModel.UpdateLoopPreservesInv | Source/sound_file_player.cpp:110-114 | setting the looping flag keeps the invariant |
| TransportModel.TickPreservesInv | Source/sound_file_player.cpp:152-175 | the timer tick keeps the invariant |
| TransportModel.OpenPreservesInv | Source/sound_file_player.cpp:208-216 | a successful open keeps the invariant: installing the new source before releasing the old one means the release never hits the source the transport reads, and source ids stay increasing |
| TransportModel.StepPreservesInv | Source/sound_file_player.cpp:69-234 | every handler keeps the invariant: Play enabled iff a source is owned, the transport reads the owned source, no start without a source, no source released while the transport reads it, sources installed and released at most once each, and the labels and Stop flag that go with Stopped, Playing, Pausing and Paused |
| TransportModel.RunPreservesInv | Source/sound_file_player.cpp:69-234 | any sequence of events keeps the invariant |
| TransportModel.Reachable | Source/sound_file_player.cpp:13-234 | in every reachable state Play is enabled exactly when a source is loaded, the transport reads the owned source, start was only sent with a source loaded, Stop is disabled in Stopped and enabled in Playing |
| TransportModel.SwapSafety | Source/sound_file_player.cpp:210-215 | in every reachable log no source is released while the transport reads from it, no source is installed twice and none is released twice |
| TransportModel.PlayStaysEnabled | Source/sound_file_player.cpp:208-215 | once a file has been opened, Play stays enabled and a source stays loaded for any later events |
| TransportModel.RenderReadsOwnedSource | Source/sound_file_player.cpp:138-146 | in every reachable state the block is silent exactly when the transport has no source, and otherwise the transport reads the owned source |
| TransportModel.DragSuppressesSlider | Source/sound_file_player.cpp:161-165 | any number of ticks while a thumb is dragged leave the slider, the state and the transport unchanged |
| TransportModel.PlayWithoutFileIgnored | Source/sound_file_player.cpp:23-28 | with no file loaded, a click on the disabled Play button changes nothing |
| TransportModel.PausedKeepsStopEnabled | Source/sound_file_player.cpp:87-100 | open, play, confirm, pause, confirm ends in Paused with Stop enabled and labelled "Return to beginning" |
| SoundFilePlayer.ReaderSource.constructor | Source/sound_file_player.cpp:210 | a new reader source is not looping |
| SoundFilePlayer.SoundFilePlayerComponent.constructor | Source/sound_file_player.cpp:13-48 | the constructed component's value is the initial player |
| SoundFilePlayer.SoundFilePlayerComponent.ChangeState | Source/sound_file_player.cpp:69-107 | the in-place changeState moves the component as Enter does and keeps the transport on the owned source |
| SoundFilePlayer.SoundFilePlayerComponent.UpdateLoopState | Source/sound_file_player.cpp:110-114 | setting the looping flag on the owned source object moves the component as UpdateLoop does |
| SoundFilePlayer.SoundFilePlayerComponent.ChangeListenerCallback | Source/sound_file_player.cpp:120-131 | the notification handler moves the component as StreamChanged does |
| SoundFilePlayer.SoundFilePlayerComponent.GetNextAudioBlock | Source/sound_file_player.cpp:138-146 | silence exactly when no source is owned; otherwise the transport's source is the owned one |
| SoundFilePlayer.SoundFilePlayerComponent.TimerCallback | Source/sound_file_player.cpp:152-175 | the tick moves the component as Tick does |
| SoundFilePlayer.SoundFilePlayerComponent.InstallInTransport | Source/sound_file_player.cpp:211 | setSource points the transport at the given source and logs the installation |
| SoundFilePlayer.SoundFilePlayerComponent.ResetReaderSource | Source/sound_file_player.cpp:215 | resetting the owned pointer releases the previous source and is allowed only when the transport no longer reads it |
| SoundFilePlayer.SoundFilePlayerComponent.OpenButtonClicked | Source/sound_file_player.cpp:196-218 | a successful open owns a freshly allocated source; the transport is switched to it before the old source is released (the release's precondition rejects the other order); the component moves as Open does |
| SoundFilePlayer.SoundFilePlayerComponent.PlayButtonClicked | Source/sound_file_player.cpp:221-226 | the Play handler moves the component as PlayClicked does |
| SoundFilePlayer.SoundFilePlayerComponent.StopButtonClicked | Source/sound_file_player.cpp:229-234 | the Stop handler moves the component as StopClicked does |

## Left out

- Audio rendering and device plumbing are left out: the delegation in `getNextAudioBlock`, `prepareToPlay`, `releaseResources`, `setAudioChannels` and `shutdownAudio` in the destructor. They are JUCE audio I/O. Only the no-source silence branch is modelled, as a boolean.
- `sliderDragEnded` is left out. Its seek to `value * length` is floating-point arithmetic on the transport's length.
- TransportModel.Tick: the ratio `position / length` and the minutes/seconds/millis readout are inputs (`sampled`, `readout`). The division, its missing zero guard and the slider's clamping to its 0..1 range are not modelled.
- The file dialog and `createReaderFor` are foreign library calls. They are one input, `OpenOutcome`. The reader's sample rate passed to `setSource` is not modelled.
- `loopButtonChanged` only forwards the toggle's state. The model takes that state as the argument of `UpdateLoop`.
- Widget layout and rendering (`resized`, colours, visibility, window size) are left out. So are the unused volume and noise sliders and the `Random` field in `Source/sound_file_player.h`.
- `Source/Main.cpp` (application and window start-up) has no transport logic and is not modelled.
- The 20 ms timer and the realtime audio thread are not modelled. Each handler is one atomic sequential step. The source swap is ordered inside `OpenButtonClicked`, but concurrent rendering during the swap is not modelled.
- The transport's own behaviour (when it broadcasts a change, what `isPlaying()` answers) is not modelled. Its answers are free inputs, so the properties hold for any answers it gives.
