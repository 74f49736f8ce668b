/** One stem: its loaded buffer, its playback channel, the two control flags
    its loop thread watches, and one pass of that loop. */
module Instruments {
  import opened Sync

  /** What the stem's mixer channel is doing. The backend itself is not part of
      this model; only the segment last handed to it and whether it is held. */
  datatype ChannelState =
    | Silent                         // never played, or stopped
    | Playing(segment: seq<Frame>)   // sounding a segment from its top
    | Held(segment: seq<Frame>)      // paused in the middle of a segment

  /** The backend's channel pause: a sounding segment is held, anything else
      is left as it is. */
  function PauseChannel(c: ChannelState): ChannelState
  {
    if c.Playing? then Held(c.segment) else c
  }

  /** Life of the loop thread. */
  datatype ThreadState = NotStarted | Running | Finished

  /** The result of one pass of the loop. */
  datatype StepOutcome =
    | Blocked                      // paused: waits for resume or stop, plays nothing
    | Exit                         // the stop flag is set: the loop ends
    | Retrigger(startSample: nat)  // the channel was re-cut at this offset and restarted
    | Fault                        // empty buffer: the offset's modulo by zero raises, the loop ends

  /** What one pass of the loop does, from the two flags, the buffer length and
      the elapsed frame count at that instant. */
  function Iteration(paused: bool, stopped: bool, total: nat, elapsed: nat): (o: StepOutcome)
    ensures stopped ==> o == Exit
    ensures paused && !stopped ==> o == Blocked
    ensures o.Retrigger? <==> !paused && !stopped && total > 0
    ensures o.Retrigger? ==> o.startSample < total && o.startSample == StartSample(elapsed, total)
    ensures o == Fault <==> !paused && !stopped && total == 0
  {
    if stopped then Exit
    else if paused then Blocked
    else if total == 0 then Fault
    else Retrigger(StartSample(elapsed, total))
  }

  class Instrument {
    const name: string
    const buffer: seq<Frame>
    const channelId: nat
    /** The pause flag guarded by the loop's condition variable. */
    var paused: bool
    /** The stop event. */
    var stopped: bool
    var channel: ChannelState
    var thread: ThreadState

    /** Loads the stem; its loop is not started yet. */
    constructor (name: string, buffer: seq<Frame>, channelId: nat)
      ensures this.name == name && this.buffer == buffer && this.channelId == channelId
      ensures !paused && !stopped && channel == Silent && thread == NotStarted
    {
      this.name := name;
      this.buffer := buffer;
      this.channelId := channelId;
      paused := false;
      stopped := false;
      channel := Silent;
      thread := NotStarted;
    }

    /** Starts the loop thread; a thread can be started once. */
    method Start()
      requires thread == NotStarted
      modifies this`thread
      ensures thread == Running
    {
      thread := Running;
    }

    /** One pass of the loop at the instant when `elapsed` frames have passed
        since the shared epoch. The flags are only read; only a re-trigger
        touches the channel, and it hands it the buffer cut at the offset the
        shared timeline dictates, whatever the stem's pause history. */
    method Step(elapsed: nat) returns (o: StepOutcome)
      requires thread == Running
      modifies this`channel, this`thread
      ensures o == Iteration(paused, stopped, |buffer|, elapsed)
      ensures o.Retrigger? ==> channel == Playing(Segment(buffer, elapsed)) && thread == Running
      ensures o.Blocked? ==> channel == old(channel) && thread == Running
      ensures (o.Exit? || o.Fault?) ==> channel == old(channel) && thread == Finished
    {
      if stopped {
        thread := Finished;
        return Exit;
      }
      if paused {
        return Blocked;
      }
      if |buffer| == 0 {
        thread := Finished;
        return Fault;
      }
      var start := StartSample(elapsed, |buffer|);
      var segment := Rotate(buffer, start);
      channel := Playing(segment);
      o := Retrigger(start);
    }

    /** Sets the pause flag and holds the channel; the stop flag is untouched. */
    method Pause()
      modifies this`paused, this`channel
      ensures paused && channel == PauseChannel(old(channel))
      ensures !channel.Playing?
    {
      paused := true;
      channel := PauseChannel(channel);
    }

    /** Clears the pause flag. The channel is not resumed here: it stays held
        until the loop's next re-trigger. The stop flag is untouched, so a
        stopped stem stays stopped. */
    method Resume()
      modifies this`paused
      ensures !paused
    {
      paused := false;
    }

    /** Sets the stop flag, clears the pause flag and silences the channel.
        The new state does not depend on the old one, so a second call
        changes nothing. */
    method Stop()
      modifies this`stopped, this`paused, this`channel
      ensures stopped && !paused && channel == Silent
      ensures old(stopped && !paused && channel == Silent) ==> unchanged(this)
    {
      stopped := true;
      paused := false;
      channel := Silent;
    }

    /** Whether the stem is audible: the backend reports the channel busy and
        the stem is not paused. */
    function IsPlaying(busy: bool): (r: bool)
      reads this
      ensures paused ==> !r
      ensures r ==> busy
    {
      busy && !paused
    }
  }

  /** A stem paused one second after the epoch and resumed at three seconds
      (44100 frames per second, a four-second loop of 176400 frames): while
      paused it is silent and its loop plays nothing; the first pass after
      resuming cuts the buffer at the three-second offset, 132300, not at the
      one-second offset where it was paused. */
  method PauseResumeExample() returns (silent: bool, whilePaused: StepOutcome, afterResume: StepOutcome)
    ensures silent && whilePaused == Blocked && afterResume == Retrigger(132300)
  {
    var inst := new Instrument("baixo", seq(176400, _ => Frame(0, 0)), 0);
    inst.Start();
    var first := inst.Step(0);
    inst.Pause();
    silent := !inst.IsPlaying(true);
    whilePaused := inst.Step(1 * 44100);
    inst.Resume();
    afterResume := inst.Step(3 * 44100);
  }

  /** Stopping twice is harmless, and a resume after a stop does not bring the
      stem back: its next pass exits and its channel stays silent. */
  method StopIsFinalExample(buffer: seq<Frame>, elapsed: nat) returns (o: StepOutcome, channel: ChannelState)
    ensures o == Exit && channel == Silent
  {
    var inst := new Instrument("voz", buffer, 1);
    inst.Start();
    inst.Stop();
    inst.Stop();
    inst.Resume();
    o := inst.Step(elapsed);
    channel := inst.channel;
  }
}
