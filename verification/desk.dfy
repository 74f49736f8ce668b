/** The desk: the registry of named stems, the channel allocation and the
    commands that are dispatched to one stem or to all of them. */
module Desk {
  import opened Sync
  import Instruments

  /** The outcome `add_instrument` reports. */
  datatype AddOutcome =
    | Added(channelId: nat)
    | DuplicateName   // a stem of that name is already registered
    | NoFreeChannel   // every channel of the mixer is taken
    | LoadFailed      // loading the stem raised (unreadable file, or the mixer is shut down)

  /** The state label the status listing shows for a stem. */
  datatype Label = Playing | Paused

  /** The process-wide mixer: opened once for the whole program, shut down
      for every desk at once. */
  class Mixer {
    /** The number of playback channels it provides. */
    const channels: nat
    /** Whether it is still initialised. */
    var open: bool

    constructor (channels: nat)
      ensures this.channels == channels && open
    {
      this.channels := channels;
      open := true;
    }
  }

  class DJDesk {
    /** The mixer shared by every desk of the process. */
    const mixer: Mixer
    /** The number of mixer channels, read when the desk is created. */
    const maxChannels: nat
    var instruments: map<string, Instruments.Instrument>
    /** The registry's insertion order, which the status listing and the
        shutdown walk follow. */
    var order: seq<string>

    /** Names are registered once each, in `order`; the stem at position `i`
        of `order` holds channel `i`; the registry never outgrows the mixer. */
    ghost predicate Valid()
      reads this
    {
      && |order| == |instruments| <= maxChannels
      && (forall i, j :: 0 <= i < j < |order| ==> order[i] != order[j])
      && (forall n :: n in instruments <==> n in order)
      && (forall i :: 0 <= i < |order| ==>
            order[i] in instruments
            && instruments[order[i]].channelId == i
            && instruments[order[i]].name == order[i])
    }

    /** A desk on an initialised mixer, with its channel count as capacity. */
    constructor (mixer: Mixer)
      requires mixer.open
      ensures Valid()
      ensures this.mixer == mixer && maxChannels == mixer.channels && instruments == map[] && order == []
    {
      this.mixer := mixer;
      maxChannels := mixer.channels;
      instruments := map[];
      order := [];
    }

    /** Every registered stem holds its own channel, below the mixer's
        capacity; in particular no two names share a stem object. */
    lemma ChannelIdsUnique()
      requires Valid()
      ensures forall a, b :: a in instruments && b in instruments && a != b ==>
                instruments[a].channelId != instruments[b].channelId && instruments[a] != instruments[b]
      ensures forall a :: a in instruments ==> instruments[a].channelId < maxChannels
    {
      forall a, b | a in instruments && b in instruments && a != b
        ensures instruments[a].channelId != instruments[b].channelId
      {
        var i :| 0 <= i < |order| && order[i] == a;
        var j :| 0 <= j < |order| && order[j] == b;
        assert instruments[a].channelId == i && instruments[b].channelId == j;
      }
      forall a | a in instruments
        ensures instruments[a].channelId < maxChannels
      {
        var i :| 0 <= i < |order| && order[i] == a;
      }
    }

    /** Registers a stem under `name` on the next free channel and starts its
        loop. `loadOk` is whether loading its file succeeds. On any failure
        the registry is left exactly as it was; on success exactly one entry
        is added, on channel `|old(instruments)|`, and every earlier entry,
        channel included, is kept. */
    method AddInstrument(name: string, buffer: seq<Frame>, loadOk: bool) returns (outcome: AddOutcome)
      requires Valid()
      modifies this
      ensures Valid()
      ensures outcome == DuplicateName <==> name in old(instruments)
      ensures outcome == NoFreeChannel <==> name !in old(instruments) && |old(instruments)| >= maxChannels
      ensures outcome == LoadFailed <==>
                name !in old(instruments) && |old(instruments)| < maxChannels && !(loadOk && mixer.open)
      ensures outcome.Added? <==>
                name !in old(instruments) && |old(instruments)| < maxChannels && loadOk && mixer.open
      ensures !outcome.Added? ==> instruments == old(instruments) && order == old(order)
      ensures outcome.Added? ==>
                && outcome.channelId == |old(instruments)|
                && name !in old(instruments)
                && order == old(order) + [name]
                && instruments == old(instruments)[name := instruments[name]]
                && fresh(instruments[name])
                && instruments[name].name == name
                && instruments[name].buffer == buffer
                && instruments[name].channelId == outcome.channelId
                && instruments[name].thread == Instruments.Running
                && !instruments[name].paused && !instruments[name].stopped
                && instruments[name].channel == Instruments.Silent
    {
      if name in instruments {
        return DuplicateName;
      }
      var channelId := |instruments|;
      if channelId >= maxChannels {
        return NoFreeChannel;
      }
      if !(loadOk && mixer.open) {
        return LoadFailed;
      }
      var inst := new Instruments.Instrument(name, buffer, channelId);
      inst.Start();
      instruments := instruments[name := inst];
      order := order + [name];
      outcome := Added(channelId);
    }

    /** Pauses the stem named `name`, if there is one; an unknown name changes
        nothing. No other stem is touched. */
    method PauseInstrument(name: string) returns (found: bool)
      requires Valid()
      modifies instruments.Values
      ensures Valid()
      ensures found == (name in instruments)
      ensures found ==>
                && instruments[name].paused
                && instruments[name].channel == Instruments.PauseChannel(old(instruments[name].channel))
                && instruments[name].stopped == old(instruments[name].stopped)
                && instruments[name].thread == old(instruments[name].thread)
      ensures forall n :: n in instruments && n != name ==> unchanged(instruments[n])
    {
      ChannelIdsUnique();
      found := name in instruments;
      if found {
        instruments[name].Pause();
      }
    }

    /** Resumes the stem named `name`, if there is one; an unknown name
        changes nothing. No other stem is touched, and a stopped stem stays
        stopped. */
    method ResumeInstrument(name: string) returns (found: bool)
      requires Valid()
      modifies instruments.Values
      ensures Valid()
      ensures found == (name in instruments)
      ensures found ==>
                && !instruments[name].paused
                && instruments[name].channel == old(instruments[name].channel)
                && instruments[name].stopped == old(instruments[name].stopped)
                && instruments[name].thread == old(instruments[name].thread)
      ensures forall n :: n in instruments && n != name ==> unchanged(instruments[n])
    {
      ChannelIdsUnique();
      found := name in instruments;
      if found {
        instruments[name].Resume();
      }
    }

    /** Stops every registered stem, in registration order, then empties the
        registry and shuts the shared mixer down, for every desk. Safe on an
        empty registry. The stems' loop threads are left to notice the stop
        flag on their next pass. */
    method StopAll()
      requires Valid()
      modifies this, mixer, instruments.Values
      ensures Valid() && instruments == map[] && order == [] && !mixer.open
      ensures forall inst :: inst in old(instruments).Values ==>
                inst.stopped && !inst.paused && inst.channel == Instruments.Silent
                && inst.thread == old(inst.thread)
    {
      ChannelIdsUnique();
      var i := 0;
      while i < |order|
        invariant 0 <= i <= |order|
        invariant instruments == old(instruments) && order == old(order)
        invariant forall j :: 0 <= j < i ==>
                    instruments[order[j]].stopped && !instruments[order[j]].paused
                    && instruments[order[j]].channel == Instruments.Silent
        invariant forall j :: 0 <= j < |order| ==>
                    instruments[order[j]].thread == old(instruments[order[j]].thread)
      {
        instruments[order[i]].Stop();
        i := i + 1;
      }
      forall inst | inst in instruments.Values
        ensures inst.stopped && !inst.paused && inst.channel == Instruments.Silent
        ensures inst.thread == old(inst.thread)
      {
        var n :| n in instruments && instruments[n] == inst;
        var j :| 0 <= j < |order| && order[j] == n;
      }
      instruments := map[];
      order := [];
      mixer.open := false;
    }

    /** One line per registered stem, in registration order: its name and
        whether it is audible, given the set of channels the mixer reports
        busy. A paused stem is never listed as playing. */
    method ShowStatus(busy: set<nat>) returns (lines: seq<(string, Label)>)
      requires Valid()
      ensures |lines| == |order|
      ensures forall i :: 0 <= i < |order| ==>
                lines[i].0 == order[i]
                && (lines[i].1 == Playing <==> instruments[order[i]].IsPlaying(instruments[order[i]].channelId in busy))
      ensures forall i :: 0 <= i < |lines| ==>
                lines[i].0 in instruments && (lines[i].1 == Playing ==> !instruments[lines[i].0].paused)
    {
      lines := [];
      var i := 0;
      while i < |order|
        invariant 0 <= i <= |order|
        invariant |lines| == i
        invariant forall k :: 0 <= k < i ==>
                    lines[k].0 == order[k]
                    && (lines[k].1 == Playing <==> instruments[order[k]].IsPlaying(instruments[order[k]].channelId in busy))
      {
        var inst := instruments[order[i]];
        var shown := if inst.IsPlaying(inst.channelId in busy) then Playing else Paused;
        lines := lines + [(order[i], shown)];
        i := i + 1;
      }
    }
  }

  /** Two desks on one mixer with eight channels: a new name is registered on
      channel 0, the same name again is refused, and once the first desk has
      shut the mixer down the second desk can no longer load a stem. */
  method SharedMixerExample(buffer: seq<Frame>) returns (first: AddOutcome, again: AddOutcome, afterShutdown: AddOutcome)
    ensures first == Added(0) && again == DuplicateName && afterShutdown == LoadFailed
  {
    var mixer := new Mixer(8);
    var desk := new DJDesk(mixer);
    var other := new DJDesk(mixer);
    first := desk.AddInstrument("baixo", buffer, true);
    again := desk.AddInstrument("baixo", buffer, true);
    desk.StopAll();
    afterShutdown := other.AddInstrument("bateria", buffer, true);
  }
}
