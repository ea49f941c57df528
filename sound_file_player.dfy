/** The sound file player component as a class whose handlers update its fields in
    place. Each handler is proved to move the component's value view, `Model()`, exactly
    as the matching function of TransportModel does, so the invariants and run lemmas
    proved there hold of the component. */
module SoundFilePlayer {
  import opened TransportModel

  /** An AudioFormatReaderSource: a decoded file that the transport can read. */
  class ReaderSource {
    ghost const id: nat
    var looping: bool

    constructor (ghost id: nat)
      ensures this.id == id && !looping
    {
      this.id := id;
      looping := false;
    }
  }

  class SoundFilePlayerComponent {
    var state: TransportState
    var playLabel: string
    var stopLabel: string
    var playEnabled: bool
    var stopEnabled: bool
    var timeLabel: string
    var currentProgress: real
    var sliderValue: real
    /** The source the component owns (readerSource_). */
    var readerSource: ReaderSource?
    /** The source the audio transport reads from (set by setSource). */
    var transportSource: ReaderSource?
    ghost var created: nat
    ghost var log: seq<Command>

    /** Between two handlers the transport reads from the owned source. */
    ghost predicate Valid()
      reads this
    {
      transportSource == readerSource
    }

    ghost function Model(): Player
      reads this, readerSource
    {
      Player(state, playLabel, stopLabel, playEnabled, stopEnabled, timeLabel,
             currentProgress, sliderValue,
             if readerSource == null then None else Some(Source(readerSource.id, readerSource.looping)),
             created, log)
    }

    constructor ()
      ensures Valid() && Model() == Init()
    {
      state := Stopped;
      playLabel := "Play";
      playEnabled := false;
      stopLabel := "Stop";
      stopEnabled := false;
      timeLabel := "Stopped";
      currentProgress := 0.0;
      sliderValue := currentProgress;
      readerSource := null;
      transportSource := null;
      created := 0;
      log := [];
    }

    method ChangeState(newState: TransportState)
      requires Valid()
      modifies this
      ensures Valid() && readerSource == old(readerSource)
      ensures Model() == Enter(old(Model()), newState)
    {
      if state != newState {
        state := newState;
        match state
        case Stopped =>
          playLabel := "Play";
          stopLabel := "Stop";
          stopEnabled := false;
          log := log + [Rewind];
          sliderValue := 0.0;
        case Starting =>
          log := log + [Start];
        case Playing =>
          playLabel := "Pause";
          stopLabel := "Stop";
          stopEnabled := true;
        case Pausing =>
          log := log + [Stop];
        case Paused =>
          playLabel := "Resume";
          stopLabel := "Return to beginning";
        case Stopping =>
          log := log + [Stop];
      }
    }

    method UpdateLoopState(loopFlag: bool)
      requires Valid()
      modifies readerSource
      ensures Valid()
      ensures Model() == UpdateLoop(old(Model()), loopFlag)
    {
      if readerSource != null {
        readerSource.looping := loopFlag;
      }
    }

    /** changeListenerCallback, with the transport's isPlaying() answer as input. */
    method ChangeListenerCallback(isPlaying: bool)
      requires Valid()
      modifies this
      ensures Valid() && readerSource == old(readerSource)
      ensures Model() == StreamChanged(old(Model()), isPlaying)
    {
      if isPlaying {
        ChangeState(Playing);
      } else if state == Stopping || state == Playing {
        ChangeState(Stopped);
      } else {
        ChangeState(Paused);
      }
    }

    /** getNextAudioBlock: true when the block is filled with silence because no source
        is loaded; otherwise the transport renders from the owned source. */
    method GetNextAudioBlock() returns (silence: bool)
      requires Valid()
      ensures silence <==> Silent(Model())
      ensures !silence ==> transportSource == readerSource != null
    {
      if readerSource == null {
        return true;
      }
      return false;
    }

    /** timerCallback, with the transport's answers as inputs: `isPlaying`, `sampled`
        for position / length, `draggedThumb` for getThumbBeingDragged() and `readout`
        for the formatted time. */
    method TimerCallback(isPlaying: bool, sampled: real, draggedThumb: int, readout: string)
      requires Valid()
      modifies this
      ensures Valid() && readerSource == old(readerSource)
      ensures Model() == Tick(old(Model()), isPlaying, sampled, draggedThumb, readout)
    {
      if isPlaying {
        currentProgress := sampled;
        if draggedThumb < 0 {
          sliderValue := currentProgress;
        }
        timeLabel := readout;
      } else {
        if state == Stopping || state == Stopped {
          timeLabel := "Stopped";
        }
      }
    }

    /** transportSource_.setSource: the transport reads from `src` from now on. */
    method InstallInTransport(src: ReaderSource)
      modifies this`transportSource, this`log
      ensures transportSource == src
      ensures log == old(log) + [SetSource(src.id)]
    {
      transportSource := src;
      log := log + [SetSource(src.id)];
    }

    /** readerSource_.reset: `src` becomes the owned source and the previously owned
        one, if any, is released, which is safe only once the transport no longer
        reads from it. */
    method ResetReaderSource(src: ReaderSource)
      requires readerSource == null || transportSource != readerSource
      modifies this`readerSource, this`log
      ensures readerSource == src
      ensures log == old(log) + (if old(readerSource) == null then [] else [Release(old(readerSource).id)])
    {
      if readerSource != null {
        log := log + [Release(readerSource.id)];
      }
      readerSource := src;
    }

    /** openButtonClicked, with the file dialog and the decoder's answer as input. The
        transport is switched to the new source before the old one is released; in the
        other order the release would hit the source the transport still reads, which
        ResetReaderSource forbids. */
    method OpenButtonClicked(outcome: OpenOutcome)
      requires Valid()
      modifies this
      ensures Valid()
      ensures outcome == Decoded ==> fresh(readerSource) && readerSource != old(readerSource)
      ensures Model() == Open(old(Model()), outcome)
    {
      if outcome == Decoded {
        var newSource := new ReaderSource(created);
        InstallInTransport(newSource);
        playEnabled := true;
        ResetReaderSource(newSource);
        created := created + 1;
      }
    }

    method PlayButtonClicked()
      requires Valid()
      modifies this
      ensures Valid() && readerSource == old(readerSource)
      ensures Model() == PlayClicked(old(Model()))
    {
      if state == Stopped || state == Paused {
        ChangeState(Starting);
      } else if state == Playing {
        ChangeState(Pausing);
      }
    }

    method StopButtonClicked()
      requires Valid()
      modifies this
      ensures Valid() && readerSource == old(readerSource)
      ensures Model() == StopClicked(old(Model()))
    {
      if state == Paused {
        ChangeState(Stopped);
      } else {
        ChangeState(Stopping);
      }
    }
  }
}
