# SN76489 register engine and note tracker

A Dafny model of the core of `vgm-visualiser`, a program that reads the
command stream of a VGM music capture and prints note-on and note-off events
for the three tone channels of the SN76489 programmable sound generator (PSG).

The model has three modules:

- `Psg` (`psg.dfy`): the chip state `Sn76489an` as an immutable record with
  its nine functional-update setters, and `Update`, the total function that
  decodes one byte written to the chip. A byte with bit 7 set is a latch/data
  byte. Bits 6-4 pick one of eight registers and bits 3-0 are the data. The
  tone-divider registers (codes 0, 2, 4) replace the divider's low nibble and
  latch the channel. The attenuation and noise registers take the nibble as
  it is. A byte with bit 7 clear is data-only: its bits 5-0 become bits 9-4
  of the divider of the latched tone channel. Registers are `bv16`/`bv8`, as
  the source's `u16`/`u8`, and the bit operations are the source's.
- `Notes` (`notes.dfy`): `get_note` (with its floating-point formula left as
  a parameter), `check_channel_changed`, and the command loop of `main`.
  The loop appears twice. `ReplayFrom` folds the loop over a command
  sequence as a function. `ProcessCommands` is the imperative loop with the
  source's mutable variables, proved to compute the same events and final
  state as the fold.
- `Tracking` (`tracking.dfy`): properties of the loop. These cover each wait
  and each channel, and also whole runs. The stream of events of a channel
  is edge-triggered. Channels are independent. Writes between two waits are
  coalesced. There are two concrete scenarios.

`check_channel_changed` (src/main.rs:179-193) is written to compare a
channel's attenuation at the previous wait with the current one: its
comments ask whether the channel was just turned on, and its
`else if last_attenuation != 0xF` arm reports a switch-off. The three call
sites (src/main.rs:197, 210, 223) pass the current attenuation twice, so
neither path can fire, and the model keeps the calls as written. As a
result, no event ever comes from an attenuation change alone. A channel that
becomes silent emits no "note off" (`SilentChannelEmitsNothing`), and a
channel that becomes audible with an unchanged divider emits no "note on"
(`UnchangedDividersOnlyRebaseline`). For example, silencing tone 1, waiting,
writing divider 0, waiting, then setting attenuation 0 and waiting emits no
event at all (`SilenceThenSoundAtZero`). A "note off" can still be printed: when
an audible channel whose tracked note is a pitch has its divider changed to
0, the detector answers with the note of divider 0, which is none. If the
tracked note is already none, nothing is printed, since an event is emitted
only when the tracked note changes (src/main.rs:202, 215, 228).

## Model

| member | source | states |
|---|---|---|
| `Psg.Default` | src/main.rs:12-36 | the power-on state has every register within its width, all dividers, attenuations and noise fields 0, and tone 1 latched |
| `Psg.Sn76489an.SetTone1Frequency` | src/main.rs:39-44 | sets tone 1's divider and leaves every other field unchanged |
| `Psg.Sn76489an.SetTone1Attenuation` | src/main.rs:46-51 | sets tone 1's attenuation and leaves every other field unchanged |
| `Psg.Sn76489an.SetTone2Frequency` | src/main.rs:53-58 | sets tone 2's divider and leaves every other field unchanged |
| `Psg.Sn76489an.SetTone2Attenuation` | src/main.rs:60-65 | sets tone 2's attenuation and leaves every other field unchanged |
| `Psg.Sn76489an.SetTone3Frequency` | src/main.rs:67-72 | sets tone 3's divider and leaves every other field unchanged |
| `Psg.Sn76489an.SetTone3Attenuation` | src/main.rs:74-79 | sets tone 3's attenuation and leaves every other field unchanged |
| `Psg.Sn76489an.SetNoiseType` | src/main.rs:81-86 | sets the noise type and leaves every other field unchanged |
| `Psg.Sn76489an.SetNoiseAttenuation` | src/main.rs:88-93 | sets the noise attenuation and leaves every other field unchanged |
| `Psg.Sn76489an.SetLatchedChannel` | src/main.rs:95-100 | sets the latched channel and leaves every other field unchanged |
| `Psg.Sn76489an.Update` | src/main.rs:102-134 | a write of any of the 256 byte values keeps every register within its width (10-bit dividers, 4-bit attenuations and noise fields) |
| `Psg.UpdateLatchFrequency` | src/main.rs:105-113 | a latch byte with code 0/2/4 sets that tone's divider to bits 9-4 of the old divider with bits 3-0 from `cmd & 0x0F`, latches that tone, and changes nothing else |
| `Psg.WriteRegisterFrame` | src/main.rs:105-113 | a latch write of a tone divider (codes 0, 2, 4) changes that tone's divider and the latched channel and nothing else |
| `Psg.UpdateLatchAttenuation` | src/main.rs:105-114 | a latch byte with code 1/3/5 sets that tone's attenuation to `cmd & 0x0F` and changes nothing else, the latch included |
| `Psg.UpdateLatchNoise` | src/main.rs:115-116 | a latch byte with code 6 or 7 sets the noise type or noise attenuation to `cmd & 0x0F` and changes nothing else |
| `Psg.UpdateData` | src/main.rs:119-132 | a data-only byte sets the latched tone's divider to `cmd & 0x3F` in bits 9-4 with the old bits 3-0 and changes nothing else, the latch included |
| `Psg.WriteLatchedFrame` | src/main.rs:122-132 | the data-only write changes only the latched channel's divider, keeping its low nibble |
| `Psg.ApplyAll` | src/main.rs:161-163 | folding any byte sequence through `Update` from a state within widths stays within widths |
| `Psg.ReachableStatesValid` | src/main.rs:150-163 | every chip state reachable from power-on has all registers within their widths |
| `Psg.LatchThenData` | src/main.rs:105-132 | a tone latch byte with low nibble `lo` then a data-only byte `hi` set that tone's divider to `hi & 0x3F` in bits 9-4 and `lo` in bits 3-0, latch that tone, and change nothing else |
| `Psg.DataByteIgnoresBit6` | src/main.rs:119-120 | a data-only byte's bit 6 has no effect |
| `Psg.DataByteFromDefault` | src/main.rs:119-125 | before any latch byte, a data-only byte writes tone 1's divider and nothing else |
| `Psg.LatchPersistenceExamples` | src/main.rs:105-125 | 0x80 then 0x00 gives tone 1 divider 0; 0x80 then 0x3F gives 0x3F0 |
| `Notes.GetNote` | src/main.rs:137-145 | the note is none exactly for divider 0, otherwise the pitch of the divider |
| `Notes.CheckChannelChanged` | src/main.rs:179-193 | audible and (just switched on or divider changed) gives the new divider's note; just silenced gives "off"; anything else gives "no change" |
| `Notes.UnchangedChannelReportsNothing` | src/main.rs:179-193 | identical inputs never report a change |
| `Notes.SameAttenuationDecision` | src/main.rs:197 | with the current attenuation passed twice, a change is reported exactly when the channel is audible and its divider changed; the switch-off branch never fires, and "off" is reported exactly when an audible channel's divider changed to 0 |
| `Notes.Initial` | src/main.rs:150-155 | before the first command both chip snapshots are the power-on state and no channel has a note |
| `Notes.ReplayFrom` | src/main.rs:157-236 | the loop run over a command sequence, as a fold of `Step`; it emits at most three events per command |
| `Notes.Tick` | src/main.rs:195-236 | a wait makes the current chip state the baseline and emits at most three events |
| `Notes.Step` | src/main.rs:157-236 | a non-wait command changes only the current chip state (a PSG write through `Update`, anything else not at all) and emits nothing; a wait sets the baseline to the current state; states stay within widths |
| `Notes.DiffChannel` | src/main.rs:196-207 | one channel's block updates its tracked note from the detector's answer and emits an event carrying the new note exactly when that note differs from the old one |
| `Notes.ProcessCommands` | src/main.rs:150-236 | the imperative loop yields the same events and final state as `ReplayFrom` from power-on |
| `Tracking.TickNote` | src/main.rs:196-200 | at a wait a channel's note changes only when it is audible and its divider differs from the baseline's, and then becomes the new divider's note |
| `Tracking.TickEvents` | src/main.rs:195-233 | a wait emits at most one event per channel, exactly when its tracked note changed, carrying the new note |
| `Tracking.SilentChannelEmitsNothing` | src/main.rs:197-207 | a channel at attenuation 15 keeps its note and emits nothing at a wait |
| `Tracking.TickIndependent` | src/main.rs:195-233 | a channel's new note and events depend only on that channel's divider, baseline divider, attenuation and note |
| `Tracking.StepEvents` | src/main.rs:157-236 | any command emits at most one event per channel, exactly when that channel's note changed |
| `Tracking.ReplayEdgeTriggered` | src/main.rs:196-233 | over any run, each event of a channel carries a note different from the previous one, and the last is the note tracked at the end |
| `Tracking.ReplayFromAppend` | src/main.rs:157-236 | running the loop over `a` and then, from where it stopped, over `b` gives the same final state and the same events, in order, as running it over `a + b` |
| `Tracking.ReplayValid` | src/main.rs:157-236 | both chip states the loop holds stay within register widths over any run |
| `Tracking.WritesFold` | src/main.rs:161-163 | PSG writes alone emit nothing and only fold into the current chip state |
| `Tracking.WritesThenWait` | src/main.rs:157-236 | a wait after any number of writes sees only their net effect on the chip state |
| `Tracking.ThreeWritesOneNoteOn` | src/main.rs:157-236 | tone 1's attenuation set to 0, a wait, then three divider writes and a wait, gives one "note on" for the last divider |
| `Tracking.SwitchOnAtZero` | src/main.rs:157-236 | switching tone 1 on while its divider is 0 changes no note |
| `Tracking.ThreeWritesAfterSwitchOn` | src/main.rs:157-236 | three divider writes to the audible tone 1, then a wait, give one "note on" for divider 3 |
| `Tracking.UnchangedDividersOnlyRebaseline` | src/main.rs:195-236 | a wait at which no divider differs from the baseline emits nothing, keeps every note and only sets the baseline |
| `Tracking.SilenceThenSoundAtZero` | src/main.rs:157-236 | silencing tone 1, writing divider 0, then making it loudest, with waits between, emits no event |

## Left out

- Reading and decompressing the capture file (`VgmFile::from_path_gz`) is not modelled. The loop takes an already decoded command sequence, and `Command` lists the kinds the loop tells apart, with `Other` standing for the rest.
- `sleep_for_n_samples` is not modelled. The wait commands carry their sample counts, but the model does not use them: sleeping affects neither the state nor the events.
- `GetNote`: the note of a nonzero divider is the parameter `pitch`, not the floating-point formula `round(12 log2(3580000 / (32 f) / 440))`. Only the zero-divider case is pinned down.
- Printing is not modelled. Each printed line is an `Event` appended to the returned sequence, with `Some(n)` for "note on n" and `None` for "note off".
- The YM2612 port writes are kept as commands but have no effect, as in the source.
- Notes are unbounded integers, not `isize`. The formula yields small values, so the width plays no part.
- The `unreachable!()` arm of `update` is not modelled: a three-bit register code has only the eight values handled.
