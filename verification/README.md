# Phase-locked stem looper, modelled in Dafny

`Dj.py` plays several looping audio stems ("instruments") so that they stay in
phase with one shared epoch. Each stem runs its own loop: it takes the time
elapsed since the epoch, turns it into an offset inside its looping buffer,
cuts the buffer at that offset (tail first, then head), and restarts its mixer
channel on that segment; pause, resume and stop flip two flags that the loop
watches. A desk (`DJDesk`) keeps the registry of named stems, hands each new
stem the next mixer channel, and dispatches pause, resume, status and
shutdown.

The model has three modules:

- `Sync` (`sync.dfy`), pure: the offset `StartSample`, the cut `Rotate`, and
  the lemmas that make the design work. A segment played at any instant is in
  phase with a loop that has run since the epoch (`PhaseAligned`). Two stems of
  the same length re-triggered together play the same loop position frame for
  frame (`SharedEpochInPhase`). A resumed stem jumps ahead by the time it spent
  paused (`ResumeJumpsAhead`). The cut loses and reorders nothing beyond the
  rotation itself (`RotateInverse`, `RotatePermutes`).
- `Instruments` (`instrument.dfy`), imperative: class `Instrument` with the
  pause flag, the stop event, the channel state and the thread state as
  fields, and `Step`, one pass of the `run` loop, specified by the pure
  `Iteration`.
- `Desk` (`desk.dfy`), imperative: class `DJDesk` with the registry as a
  `map` plus its insertion order. The object invariant `Valid` says that the
  stem at position `i` holds channel `i` and that the registry never outgrows
  the mixer. Every method keeps it, so channel numbers stay distinct and in
  range across any sequence of commands (`ChannelIdsUnique`).

Time is measured in frames: the elapsed count is the already-truncated
product of elapsed seconds and sample rate, so `StartSample(elapsed, total)`
is `int(elapsed * rate) % total`. The desk's epoch is therefore implicit:
every stem of one desk receives the same elapsed count at the same instant.

Three behaviours of the code are modelled as written, though a reader might expect otherwise:

- A stem whose buffer is empty does not keep the offset invariant: the modulo
  by zero raises inside the loop thread and that thread dies. `Step` returns
  `Fault` and the thread state becomes `Finished`.
- `resume` only clears the flag. It does not resume the mixer channel, which
  stays held until the loop's next re-trigger.
- The mixer is one per process (class `Mixer`, shared by every desk). After
  `stop_all` has shut it down, a later `add_instrument` on any desk fails
  while the stem is being constructed, and that desk's registry is left
  unchanged (`LoadFailed`).

## Model

| member | source | states |
|---|---|---|
| `Sync.StartSample` | Dj.py:40 | the offset lies in `[0, total)` and differs from the elapsed frame count by whole loops |
| `Sync.Rotate` | Dj.py:42-45 | the segment has the buffer's length and its `i`-th frame is the buffer's frame `(k + i) mod length` |
| `Sync.Segment` | Dj.py:39-45 | the segment a re-trigger plays is the buffer cut at the offset for `elapsed`: as long as the buffer and made of exactly its frames; `PhaseAligned` gives their order |
| `Sync.RotateZero` | Dj.py:42-45 | cutting at offset 0 yields the buffer unchanged |
| `Sync.RotateInverse` | Dj.py:42-45 | cutting the segment again at `length - k` restores the buffer |
| `Sync.RotatePermutes` | Dj.py:42-45 | the segment holds exactly the buffer's frames, as a multiset |
| `Sync.PhaseAligned` | Dj.py:39-45 | frame `i` of the segment re-triggered at `elapsed` is the frame a loop running since the epoch sounds at `elapsed + i` |
| `Sync.SharedEpochInPhase` | Dj.py:39-45 | two stems of equal length re-triggered at the same instant get the same offset and play the same loop position frame by frame |
| `Sync.ResumeJumpsAhead` | Dj.py:39-40 | the offset at resume is the offset at pause advanced by the paused duration modulo the loop, and it equals the paused offset iff the pause lasted whole loops |
| `Instruments.Iteration` | Dj.py:31-40 | a set stop flag always exits; paused and not stopped blocks; a re-trigger happens iff both flags are clear and the buffer is non-empty, at an in-bounds offset; an empty buffer faults |
| `Instruments.Instrument.constructor` | Dj.py:10-28 | a new stem is neither paused nor stopped, its channel is silent and its thread not started |
| `Instruments.Instrument.Start` | Dj.py:89 | the loop thread is running |
| `Instruments.Instrument.Step` | Dj.py:30-52 | the pass does what `Iteration` says; a re-trigger plays the buffer cut at the current offset; a blocked pass changes nothing; exit or fault ends the thread; the flags are never written |
| `Instruments.Instrument.Pause` | Dj.py:54-57 | the pause flag is set, a sounding channel is held, the stop flag is untouched |
| `Instruments.Instrument.Resume` | Dj.py:59-62 | the pause flag is cleared; the stop flag and the channel are untouched |
| `Instruments.Instrument.Stop` | Dj.py:64-69 | the stop flag is set, the pause flag cleared, the channel silenced; a second call changes nothing |
| `Instruments.Instrument.IsPlaying` | Dj.py:71-72 | a paused stem is never reported playing, whatever the channel reports; playing needs a busy channel |
| `Instruments.PauseResumeExample` | Dj.py:30-62 | paused at 1 s and resumed at 3 s (44100 Hz, 176400-frame loop): silent and blocked while paused, then re-cut at 132300, not at the paused offset |
| `Instruments.StopIsFinalExample` | Dj.py:30-69 | after two stops and a resume, the next pass exits and the channel stays silent |
| `Desk.Mixer.constructor` | Dj.py:7 | the process-wide mixer starts initialised with its channel count |
| `Desk.DJDesk.constructor` | Dj.py:75-78 | an empty registry on the shared mixer, with the mixer's channel count as capacity, satisfying the registry invariant |
| `Desk.DJDesk.ChannelIdsUnique` | Dj.py:84-90 | under the registry invariant, distinct names hold distinct stems on distinct channels, all below the mixer's capacity |
| `Desk.DJDesk.AddInstrument` | Dj.py:80-91 | each outcome holds exactly when its cause does: `DuplicateName` iff the name is registered, `NoFreeChannel` iff it is new and every channel is taken, `LoadFailed` iff it is new, a channel is free and loading fails (or the mixer is shut down), `Added` otherwise; on failure the registry is unchanged; on success exactly one started stem is added on channel `old size`, every earlier entry kept |
| `Desk.DJDesk.PauseInstrument` | Dj.py:93-97 | reports whether the name is known; pauses that stem only; an unknown name changes nothing |
| `Desk.DJDesk.ResumeInstrument` | Dj.py:99-103 | reports whether the name is known; resumes that stem only, leaving its stop flag; an unknown name changes nothing |
| `Desk.DJDesk.StopAll` | Dj.py:105-111 | every previously registered stem is stopped, unpaused and silent with its thread state untouched, the registry is empty and the shared mixer shut down, also from an empty registry |
| `Desk.SharedMixerExample` | Dj.py:80-110 | on two desks sharing one mixer: a new name is added on channel 0, the same name again is refused, and after one desk's shutdown the other cannot add a stem |
| `Desk.DJDesk.ShowStatus` | Dj.py:113-119 | one line per stem in registration order, labelled playing exactly when that stem reports playing on its channel's busy state; a paused stem is never listed as playing |

## Left out

- The mixer backend (`mixer.init`, `Sound`, `Channel`, `sndarray`, `make_sound`, `get_busy`, `mixer.quit`, `pygame.quit`) is foreign code. A channel is a `ChannelState` (silent, playing a segment, or held), its busy flag is an input (`IsPlaying`'s `busy`, `ShowStatus`'s set of busy channels), and the mixer's channel count is a parameter of the `Mixer` constructor.
- Threads, the lock, the condition variable and the stop event's timed wait are concurrency and are not modelled. `Step` is one pass of the loop run on its own; a wait while paused is the `Blocked` outcome; `join(timeout=1.0)` in `stop_all` is not modelled, so `StopAll` does not claim that the loop threads have ended.
- `time.time()` and the float product `elapsed * sample_rate` are replaced by a natural elapsed frame count. Negative elapsed time and float rounding are not modelled.
- The quarter-loop re-alignment tick (`total_samples / sample_rate / 4`) is not modelled, so neither is how often re-triggers happen.
- Loading a file is not modelled: the buffer is a parameter, and a load that raises is the `loadOk` parameter of `AddInstrument`. The file path and the sample rate are not stored.
- `main`, its stem list, the `input()` command loop and every `print` are interactive I/O. The printed outcomes become return values (`AddOutcome`, the `found` flags, the status lines); an empty status listing stands for the "no instruments" message.
- The unused `_running` field is not modelled.
- `Instruments.Instrument.IsPlaying`: its contract states the two promised directions (a paused stem is not playing; playing needs a busy channel) but not that a busy, unpaused stem is playing, which is its definition.
- `Desk.DJDesk.constructor`: requires the shared mixer to be open. In the code, creating a desk after the mixer has been shut down raises while reading its channel count; that failure is not modelled as an outcome.
- Several desks on one mixer: the model keeps channel state per stem and the epoch per desk. In the code, every desk numbers its stems from channel 0 on the one mixer and reads its own start time, so the first stems of two desks drive the same mixer channel (pausing one holds the other) and different desks have different epochs. Neither is modelled; the program builds one desk per process, and the model assumes that.
