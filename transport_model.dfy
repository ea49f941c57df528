/** A value-level model of the transport state machine of the sound file player
    component (Source/sound_file_player.cpp). A `Player` is a snapshot of everything
    the component's handlers read or write: the transport state, the two button labels
    and enable flags, the time readout, the progress value and the progress slider,
    the owned reader source, and the log of commands sent to the audio transport.
    Floating-point positions and the formatted readout are opaque inputs. */
module TransportModel {

  datatype Option<T> = None | Some(value: T)

  /** The six transport states, in the order the component declares them. */
  datatype TransportState = Starting | Playing | Stopping | Stopped | Pausing | Paused

  /** A command sent to the audio transport: start producing audio, stop producing
      audio, set the play position to 0.0 seconds, or install a reader source; and
      the release of an owned reader source (the `unique_ptr` deleting it), logged in
      the same sequence so that the order of installing and releasing is visible. */
  datatype Command = Start | Stop | Rewind | SetSource(id: nat) | Release(id: nat)

  /** The reader source the component owns; `id` stands for the object's identity. */
  datatype Source = Source(id: nat, looping: bool)

  /** What the "Open..." button yields: the dialog was cancelled, the chosen file has no
      decoder (a null reader), or a reader was created for it. */
  datatype OpenOutcome = Cancelled | Unreadable | Decoded

  datatype Player = Player(
    state: TransportState,
    playLabel: string,
    stopLabel: string,
    playEnabled: bool,
    stopEnabled: bool,
    timeLabel: string,
    progress: real,          // currentProgress_
    slider: real,            // the value shown by the progress slider
    reader: Option<Source>,  // readerSource_, None when it holds nullptr
    created: nat,            // how many reader sources have been made so far
    log: seq<Command>)       // every command sent to the transport and every release, oldest first

  /** The component as its constructor leaves it. */
  function Init(): Player
  {
    Player(Stopped, "Play", "Stop", false, false, "Stopped", 0.0, 0.0, None, 0, [])
  }

  /** The source most recently installed into the transport, if any. */
  function LastSource(log: seq<Command>): Option<nat>
    decreases |log|
  {
    if |log| == 0 then None
    else if log[|log| - 1].SetSource? then Some(log[|log| - 1].id)
    else LastSource(log[..|log| - 1])
  }

  lemma LastSourceAppend(log: seq<Command>, c: Command)
    ensures LastSource(log + [c]) == if c.SetSource? then Some(c.id) else LastSource(log)
  {
    assert (log + [c])[..|log|] == log;
  }

  /** No source is released while the transport reads from it: at every release in
      the log, the latest source installed before it is a different one. */
  ghost predicate NoReleaseWhileRead(log: seq<Command>)
    decreases |log|
  {
    |log| == 0 ||
    (NoReleaseWhileRead(log[..|log| - 1])
     && (log[|log| - 1].Release? ==> LastSource(log[..|log| - 1]) != Some(log[|log| - 1].id)))
  }

  /** Sources are installed in the order they were made, so none is installed twice. */
  ghost predicate SourcesIncrease(log: seq<Command>)
  {
    forall i, j :: 0 <= i < j < |log| && log[i].SetSource? && log[j].SetSource? ==> log[i].id < log[j].id
  }

  /** Sources are released in the order they were made, so none is released twice. */
  ghost predicate ReleasesIncrease(log: seq<Command>)
  {
    forall i, j :: 0 <= i < j < |log| && log[i].Release? && log[j].Release? ==> log[i].id < log[j].id
  }

  lemma NoReleaseAppend(log: seq<Command>, c: Command)
    requires NoReleaseWhileRead(log)
    requires c.Release? ==> LastSource(log) != Some(c.id)
    ensures NoReleaseWhileRead(log + [c])
  {
    assert (log + [c])[..|log|] == log;
  }

  // ---------------------------------------------------------------------------
  // changeState

  /** changeState: entering the current state does nothing; entering another state
      records it and performs that state's fixed effects. */
  function Enter(p: Player, s: TransportState): (r: Player)
    ensures r.state == s
    ensures p.state == s ==> r == p
    // changeState never touches the owned source, the Play button's enable flag,
    // the time readout or the progress value
    ensures r.reader == p.reader && r.created == p.created && r.playEnabled == p.playEnabled
    ensures r.timeLabel == p.timeLabel && r.progress == p.progress
    // it sends at most one command to the transport, and never installs or releases a source
    ensures r.log == p.log || (|r.log| == |p.log| + 1 && r.log[..|p.log|] == p.log
                               && r.log[|p.log|] in {Start, Stop, Rewind})
  {
    if p.state == s then p
    else
      match s
      case Stopped =>
        p.(state := s, playLabel := "Play", stopLabel := "Stop", stopEnabled := false,
           log := p.log + [Rewind], slider := 0.0)
      case Starting =>
        p.(state := s, log := p.log + [Start])
      case Playing =>
        p.(state := s, playLabel := "Pause", stopLabel := "Stop", stopEnabled := true)
      case Pausing =>
        p.(state := s, log := p.log + [Stop])
      case Paused =>
        p.(state := s, playLabel := "Resume", stopLabel := "Return to beginning")
      case Stopping =>
        p.(state := s, log := p.log + [Stop])
  }

  /** Repeating changeState with the same state has the effects of one call. */
  lemma EnterIdempotent(p: Player, s: TransportState)
    ensures Enter(Enter(p, s), s) == Enter(p, s)
    ensures Enter(p, p.state) == p
  {
  }

  /** The effects of entering each state from a different one. */
  lemma EnterEffects(p: Player, s: TransportState)
    requires p.state != s
    ensures var r := Enter(p, s);
      && (s == Stopped ==>
            r.playLabel == "Play" && r.stopLabel == "Stop" && !r.stopEnabled
            && r.slider == 0.0 && r.log == p.log + [Rewind])
      && (s == Playing ==>
            r.playLabel == "Pause" && r.stopLabel == "Stop" && r.stopEnabled
            && r.slider == p.slider && r.log == p.log)
      && (s == Paused ==>
            r.playLabel == "Resume" && r.stopLabel == "Return to beginning"
            && r.stopEnabled == p.stopEnabled && r.slider == p.slider && r.log == p.log)
      && (s == Starting ==> r == p.(state := s, log := p.log + [Start]))
      && (s == Pausing ==> r == p.(state := s, log := p.log + [Stop]))
      && (s == Stopping ==> r == p.(state := s, log := p.log + [Stop]))
  {
  }

  // ---------------------------------------------------------------------------
  // Command handlers

  /** playButtonClicked: Stopped or Paused start the transport, Playing pauses it,
      the three transitional states ignore the click. */
  function PlayClicked(p: Player): (r: Player)
    ensures r.state == (if p.state in {Stopped, Paused} then Starting
                        else if p.state == Playing then Pausing
                        else p.state)
    ensures r.log == (if p.state in {Stopped, Paused} then p.log + [Start]
                      else if p.state == Playing then p.log + [Stop]
                      else p.log)
    // only the state and the transport change
    ensures r == p.(state := r.state, log := r.log)
  {
    if p.state == Stopped || p.state == Paused then Enter(p, Starting)
    else if p.state == Playing then Enter(p, Pausing)
    else p
  }

  /** stopButtonClicked: Paused returns to the beginning at once; every other state,
      Stopped included, asks the transport to stop. */
  function StopClicked(p: Player): (r: Player)
    ensures r.state == (if p.state == Paused then Stopped else Stopping)
    ensures p.state == Paused ==> r.log == p.log + [Rewind] && r.slider == 0.0 && !r.stopEnabled
    ensures p.state != Paused && p.state != Stopping ==> r == p.(state := Stopping, log := p.log + [Stop])
    ensures p.state == Stopping ==> r == p
  {
    if p.state == Paused then Enter(p, Stopped) else Enter(p, Stopping)
  }

  /** changeListenerCallback: the transport reports whether it is playing. */
  function StreamChanged(p: Player, isPlaying: bool): (r: Player)
    ensures isPlaying ==> r.state == Playing
    ensures !isPlaying && p.state in {Stopping, Playing} ==> r.state == Stopped
    ensures !isPlaying && p.state !in {Stopping, Playing} ==> r.state == Paused
    // a notification never starts or stops the transport: at most it rewinds it
    ensures r.log == p.log || r.log == p.log + [Rewind]
    ensures r.log == p.log + [Rewind] <==> !isPlaying && p.state in {Stopping, Playing}
  {
    if isPlaying then Enter(p, Playing)
    else if p.state == Stopping || p.state == Playing then Enter(p, Stopped)
    else Enter(p, Paused)
  }

  // ---------------------------------------------------------------------------
  // Operations on the optional reader source

  /** updateLoopState: sets the owned source's looping flag; without a source it does
      nothing. */
  function UpdateLoop(p: Player, loopFlag: bool): (r: Player)
    ensures p.reader.None? ==> r == p
    ensures p.reader.Some? ==> r.reader == Some(p.reader.value.(looping := loopFlag))
    ensures r == p.(reader := r.reader)
  {
    match p.reader
    case None => p
    case Some(src) => p.(reader := Some(src.(looping := loopFlag)))
  }

  /** openButtonClicked: a cancelled dialog or an unreadable file changes nothing;
      otherwise a new, non-looping source is installed into the transport, Play is
      enabled, and only then does the new source replace the owned one, releasing it.
      The transport state, the labels, the Stop button, the progress and the slider are
      left as they were. */
  function Open(p: Player, outcome: OpenOutcome): (r: Player)
    ensures outcome != Decoded ==> r == p
    ensures outcome == Decoded ==>
      && r.reader.Some? && !r.reader.value.looping && r.playEnabled
      && r.reader.value.id == p.created
      // installed first, then the previously owned source (if any) is released
      && r.log == p.log + [SetSource(r.reader.value.id)]
                        + (if p.reader.Some? then [Release(p.reader.value.id)] else [])
      && r == p.(reader := r.reader, playEnabled := true, created := p.created + 1, log := r.log)
  {
    if outcome == Decoded then
      var src := Source(p.created, false);
      var released := if p.reader.Some? then [Release(p.reader.value.id)] else [];
      p.(log := p.log + [SetSource(src.id)] + released, playEnabled := true,
         reader := Some(src), created := p.created + 1)
    else p
  }

  /** The branch of getNextAudioBlock that fills the buffer with silence. */
  function Silent(p: Player): bool
  {
    p.reader.None?
  }

  /** timerCallback, with the transport's answers and the slider's dragged-thumb index
      as inputs: `sampled` stands for position / length and `readout` for the
      formatted time. */
  function Tick(p: Player, isPlaying: bool, sampled: real, draggedThumb: int, readout: string): (r: Player)
    // the tick never changes the transport state, the buttons, the source or the transport
    ensures r == p.(progress := r.progress, slider := r.slider, timeLabel := r.timeLabel)
    // while a thumb is dragged the slider keeps its value
    ensures draggedThumb >= 0 ==> r.slider == p.slider
    ensures isPlaying ==> r.progress == sampled && r.timeLabel == readout
    ensures isPlaying && draggedThumb < 0 ==> r.slider == sampled
    ensures !isPlaying ==> r.progress == p.progress && r.slider == p.slider
    ensures !isPlaying && p.state in {Stopping, Stopped} ==> r.timeLabel == "Stopped"
    ensures !isPlaying && p.state !in {Stopping, Stopped} ==> r == p
  {
    if isPlaying then
      p.(progress := sampled,
         slider := if draggedThumb < 0 then sampled else p.slider,
         timeLabel := readout)
    else if p.state == Stopping || p.state == Stopped then
      p.(timeLabel := "Stopped")
    else p
  }

  // ---------------------------------------------------------------------------
  // Runs of user and transport events

  /** An event the component receives. Button clicks reach a handler only when the
      button is enabled (the toolkit drops clicks on a disabled button). */
  datatype Event =
    | PlayPressed
    | StopPressed
    | StreamNotified(isPlaying: bool)
    | LoopToggled(loopFlag: bool)
    | OpenPressed(outcome: OpenOutcome)
    | TimerTick(isPlaying: bool, sampled: real, draggedThumb: int, readout: string)

  /** Dispatches one event to its handler (the onClick wiring of the constructor and
      loopButtonChanged). A click on a disabled button does not reach its handler. */
  function Step(p: Player, e: Event): (r: Player)
    ensures e == PlayPressed && !p.playEnabled ==> r == p
    ensures e == StopPressed && !p.stopEnabled ==> r == p
    ensures e == PlayPressed && p.playEnabled ==> r == PlayClicked(p)
    ensures e == StopPressed && p.stopEnabled ==> r == StopClicked(p)
  {
    match e
    case PlayPressed => if p.playEnabled then PlayClicked(p) else p
    case StopPressed => if p.stopEnabled then StopClicked(p) else p
    case StreamNotified(isPlaying) => StreamChanged(p, isPlaying)
    case LoopToggled(loopFlag) => UpdateLoop(p, loopFlag)
    case OpenPressed(outcome) => Open(p, outcome)
    case TimerTick(isPlaying, sampled, thumb, readout) => Tick(p, isPlaying, sampled, thumb, readout)
  }

  function Run(p: Player, es: seq<Event>): Player
    decreases |es|
  {
    if |es| == 0 then p else Run(Step(p, es[0]), es[1..])
  }

  /** What holds in every state the component reaches from its constructor. */
  ghost predicate Inv(p: Player)
  {
    // Play is enabled exactly when a source is owned
    && (p.playEnabled <==> p.reader.Some?)
    && (p.reader.Some? ==> p.reader.value.id < p.created)
    // the transport reads from the owned source, and from nothing when there is none
    && LastSource(p.log) == (if p.reader.Some? then Some(p.reader.value.id) else None)
    // the transport is never started before a source has been opened
    && (Start in p.log ==> p.reader.Some?)
    // every source installed or released was made before, and every released one
    // before the owned one; releases never hit the source the transport reads
    && (forall i :: 0 <= i < |p.log| && p.log[i].SetSource? ==> p.log[i].id < p.created)
    && (forall i :: 0 <= i < |p.log| && p.log[i].Release? ==> p.reader.Some? && p.log[i].id < p.reader.value.id)
    && SourcesIncrease(p.log) && ReleasesIncrease(p.log) && NoReleaseWhileRead(p.log)
    && (p.state == Stopped ==> !p.stopEnabled && p.playLabel == "Play" && p.stopLabel == "Stop")
    && (p.state in {Playing, Pausing} ==> p.stopEnabled && p.playLabel == "Pause" && p.stopLabel == "Stop")
    && (p.state == Paused ==> p.playLabel == "Resume" && p.stopLabel == "Return to beginning")
    && (p.playLabel, p.stopLabel) in {("Play", "Stop"), ("Pause", "Stop"), ("Resume", "Return to beginning")}
  }

  lemma InitInv()
    ensures Inv(Init())
  {
  }

  lemma EnterPreservesLog(p: Player, s: TransportState)
    requires Inv(p)
    ensures LastSource(Enter(p, s).log) == LastSource(p.log)
    ensures Start in Enter(p, s).log ==> Start in p.log || s == Starting
    ensures var l := Enter(p, s).log;
      && (forall i :: 0 <= i < |l| && l[i].SetSource? ==> l[i].id < p.created)
      && (forall i :: 0 <= i < |l| && l[i].Release? ==> p.reader.Some? && l[i].id < p.reader.value.id)
      && SourcesIncrease(l) && ReleasesIncrease(l) && NoReleaseWhileRead(l)
  {
    var r := Enter(p, s);
    if r.log != p.log {
      var c := r.log[|p.log|];
      assert r.log == p.log + [c];
      LastSourceAppend(p.log, c);
      NoReleaseAppend(p.log, c);
    }
  }

  /** A successful open keeps the invariant: the new source is installed before the old
      one is released, so the release never hits the source the transport reads. */
  lemma OpenPreservesInv(p: Player)
    requires Inv(p)
    ensures Inv(Open(p, Decoded))
  {
    var n := p.created;
    var l1 := p.log + [SetSource(n)];
    LastSourceAppend(p.log, SetSource(n));
    NoReleaseAppend(p.log, SetSource(n));
    assert SourcesIncrease(l1);
    if p.reader.Some? {
      var o := p.reader.value.id;
      LastSourceAppend(l1, Release(o));
      NoReleaseAppend(l1, Release(o));
      assert Open(p, Decoded).log == l1 + [Release(o)];
    } else {
      assert Open(p, Decoded).log == l1;
    }
  }

  /** changeState keeps the invariant, as long as Starting is entered only with a
      source loaded and Pausing only from Playing, which is what the handlers do. */
  lemma EnterPreservesInv(p: Player, s: TransportState)
    requires Inv(p)
    requires s == Starting ==> p.reader.Some?
    requires s == Pausing ==> p.state in {Playing, Pausing}
    ensures Inv(Enter(p, s))
  {
    EnterPreservesLog(p, s);
  }

  lemma UpdateLoopPreservesInv(p: Player, loopFlag: bool)
    requires Inv(p)
    ensures Inv(UpdateLoop(p, loopFlag))
  {
  }

  lemma TickPreservesInv(p: Player, isPlaying: bool, sampled: real, draggedThumb: int, readout: string)
    requires Inv(p)
    ensures Inv(Tick(p, isPlaying, sampled, draggedThumb, readout))
  {
  }

  lemma {:induction false} StepPreservesInv(p: Player, e: Event)
    requires Inv(p)
    ensures Inv(Step(p, e))
  {
    match e
    case PlayPressed =>
      if p.playEnabled {
        if p.state in {Stopped, Paused} { EnterPreservesInv(p, Starting); }
        else if p.state == Playing { EnterPreservesInv(p, Pausing); }
      }
    case StopPressed =>
      if p.stopEnabled {
        if p.state == Paused { EnterPreservesInv(p, Stopped); }
        else { EnterPreservesInv(p, Stopping); }
      }
    case StreamNotified(isPlaying) =>
      if isPlaying { EnterPreservesInv(p, Playing); }
      else if p.state in {Stopping, Playing} { EnterPreservesInv(p, Stopped); }
      else { EnterPreservesInv(p, Paused); }
    case LoopToggled(loopFlag) =>
      UpdateLoopPreservesInv(p, loopFlag);
    case OpenPressed(outcome) =>
      if outcome == Decoded {
        OpenPreservesInv(p);
      }
    case TimerTick(isPlaying, sampled, thumb, readout) =>
      TickPreservesInv(p, isPlaying, sampled, thumb, readout);
  }

  /** Every run from a state satisfying the invariant keeps it. */
  lemma {:induction false} RunPreservesInv(p: Player, es: seq<Event>)
    requires Inv(p)
    ensures Inv(Run(p, es))
    decreases |es|
  {
    if |es| > 0 {
      StepPreservesInv(p, es[0]);
      RunPreservesInv(Step(p, es[0]), es[1..]);
    }
  }

  /** In every reachable state: Play is enabled exactly when a source is loaded, the
      transport plays the owned source, Start was only ever sent with a source loaded,
      Stopped has Stop disabled and Playing has it enabled. */
  lemma Reachable(es: seq<Event>)
    ensures var p := Run(Init(), es);
      && (p.playEnabled <==> p.reader.Some?)
      && (p.reader.Some? ==> LastSource(p.log) == Some(p.reader.value.id))
      && (Start in p.log ==> p.reader.Some?)
      && (p.state == Stopped ==> !p.stopEnabled)
      && (p.state == Playing ==> p.stopEnabled)
  {
    InitInv();
    RunPreservesInv(Init(), es);
  }

  /** In every reachable log: no source is released while the transport reads from it,
      no source is installed twice and none is released twice. */
  lemma SwapSafety(es: seq<Event>)
    ensures var log := Run(Init(), es).log;
      NoReleaseWhileRead(log) && SourcesIncrease(log) && ReleasesIncrease(log)
  {
    InitInv();
    RunPreservesInv(Init(), es);
  }

  /** Once a source is loaded Play stays enabled and some source stays loaded. */
  lemma {:induction false} PlayStaysEnabled(p: Player, es: seq<Event>)
    requires p.playEnabled && p.reader.Some?
    ensures Run(p, es).playEnabled && Run(p, es).reader.Some?
    decreases |es|
  {
    if |es| > 0 {
      PlayStaysEnabled(Step(p, es[0]), es[1..]);
    }
  }

  /** The no-source branch of audio rendering: when the component renders silence the
      transport has no source, and otherwise it reads from the owned one. */
  lemma RenderReadsOwnedSource(es: seq<Event>)
    ensures var p := Run(Init(), es);
      (Silent(p) <==> LastSource(p.log).None?)
      && (!Silent(p) ==> LastSource(p.log) == Some(p.reader.value.id))
  {
    InitInv();
    RunPreservesInv(Init(), es);
  }

  predicate AllDragged(es: seq<Event>)
  {
    forall i :: 0 <= i < |es| ==> es[i].TimerTick? && es[i].draggedThumb >= 0
  }

  /** Timer ticks that arrive while the slider's thumb is being dragged never move the
      slider, and change neither the transport state nor the transport. */
  lemma {:induction false} DragSuppressesSlider(p: Player, es: seq<Event>)
    requires AllDragged(es)
    ensures Run(p, es).slider == p.slider
    ensures Run(p, es).state == p.state && Run(p, es).log == p.log
    decreases |es|
  {
    if |es| > 0 {
      assert AllDragged(es[1..]) by {
        forall i | 0 <= i < |es[1..]| ensures es[1..][i].TimerTick? && es[1..][i].draggedThumb >= 0 {
          assert es[1..][i] == es[i + 1];
        }
      }
      DragSuppressesSlider(Step(p, es[0]), es[1..]);
    }
  }

  /** With no file loaded a click on Play is dropped: Play is disabled. */
  lemma PlayWithoutFileIgnored()
    ensures Step(Init(), PlayPressed) == Init()
  {
  }

  /** Stop stays enabled in Paused: a run that plays, pauses and is confirmed paused
      ends in Paused with the Stop button (now "Return to beginning") enabled. */
  lemma PausedKeepsStopEnabled()
    ensures var p := Run(Init(), [OpenPressed(Decoded), PlayPressed, StreamNotified(true),
                                  PlayPressed, StreamNotified(false)]);
      p.state == Paused && p.stopEnabled && p.stopLabel == "Return to beginning"
  {
  }
}
