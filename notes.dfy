/** Note events derived from the chip state (src/main.rs, `get_note`,
    `check_channel_changed` and the command loop of `main`).

    The command loop folds register writes into the current chip state and,
    at every wait command, compares the state seen at the previous wait with
    the current one, channel by channel, then makes the current state the
    new baseline.  The loop is modelled twice: `ReplayFrom` is the fold as a
    function, and `ProcessCommands` is the loop as the source writes it,
    proved to compute the fold.
 */
module Notes {
  import opened Psg

  datatype Option<T> = None | Some(value: T)

  /** The commands of a decoded music capture that the loop distinguishes.
      `Other` stands for every command kind the loop ignores. */
  datatype Command =
    | PsgWrite(value: bv8)
    | Ym2612Port0Write(register: bv8, value: bv8)
    | Ym2612Port1Write(register: bv8, value: bv8)
    | WaitNSamples(n: nat)
    | Wait735Samples
    | Wait882Samples
    | WaitNSamplesPlus1(n: nat)
    | Other

  /** A wait command: the tick boundary at which notes are compared. */
  predicate IsWait(cmd: Command)
  {
    cmd.WaitNSamples? || cmd.Wait735Samples? || cmd.Wait882Samples? || cmd.WaitNSamplesPlus1?
  }

  /** A note event of a tone channel: `Some(n)` is "note on n", `None` is "note off". */
  datatype Event = Event(channel: LatchedChannel, note: Option<int>)

  /** The note of a divider.  A zero divider has no pitch; for any other
      divider the note is `pitch(freq)`, which stands for the source's
      floating-point formula round(12 log2(clock / (32 freq) / 440)). */
  function GetNote(pitch: bv16 -> int, freq: bv16): (r: Option<int>)
    ensures r.None? <==> freq == 0
    ensures r.Some? ==> r.value == pitch(freq)
  {
    if freq == 0 then None else Some(pitch(freq))
  }

  /** The three-way decision for one channel: `None` means "no change",
      `Some(None)` means "off" and `Some(GetNote(freq))` means "on with the
      note of the new divider".  Audible is attenuation other than 15. */
  function CheckChannelChanged(pitch: bv16 -> int, lastFreq: bv16, freq: bv16, lastAttenuation: bv8, attenuation: bv8)
    : (r: Option<Option<int>>)
    // switched on, or audible with a new divider: the new divider's note
    ensures attenuation != 0xF && (lastAttenuation == 0xF || lastFreq != freq) ==> r == Some(GetNote(pitch, freq))
    // switched off
    ensures attenuation == 0xF && lastAttenuation != 0xF ==> r == Some(None)
    // everything else is "no change"
    ensures r.None? <==>
      (attenuation != 0xF && lastAttenuation != 0xF && lastFreq == freq) ||
      (attenuation == 0xF && lastAttenuation == 0xF)
  {
    if attenuation != 0xF then
      if lastAttenuation == 0xF || lastFreq != freq then Some(GetNote(pitch, freq)) else None
    else if lastAttenuation != 0xF then Some(None)
    else None
  }

  /** Identical inputs never report a change. */
  lemma UnchangedChannelReportsNothing(pitch: bv16 -> int, freq: bv16, attenuation: bv8)
    ensures CheckChannelChanged(pitch, freq, freq, attenuation, attenuation).None?
  {
  }

  /** The loop passes the current attenuation as both the last and the
      current one.  Then the detector reports a change exactly when the
      channel is audible and its divider changed.  The switch-off branch
      never fires: an answer of "off" (`Some(None)`) arises only as the
      note of an audible channel whose divider changed to 0. */
  lemma SameAttenuationDecision(pitch: bv16 -> int, lastFreq: bv16, freq: bv16, attenuation: bv8)
    ensures CheckChannelChanged(pitch, lastFreq, freq, attenuation, attenuation) ==
      if attenuation != 0xF && lastFreq != freq then Some(GetNote(pitch, freq)) else None
    ensures CheckChannelChanged(pitch, lastFreq, freq, attenuation, attenuation) == Some(None) <==>
      attenuation != 0xF && lastFreq != freq && freq == 0
  {
  }

  /** The state the loop of `main` carries from one command to the next. */
  datatype Detector = Detector(
    psg: Sn76489an,
    lastPsg: Sn76489an,
    ch1Note: Option<int>,
    ch2Note: Option<int>,
    ch3Note: Option<int>)
  {
    /** The note tracked for tone channel `c`. */
    function Note(c: LatchedChannel): Option<int>
    {
      match c
      case Tone1 => ch1Note
      case Tone2 => ch2Note
      case Tone3 => ch3Note
    }
  }

  /** The state before the first command: both snapshots at power-on, no notes. */
  function Initial(): (d: Detector)
    ensures d.psg == d.lastPsg == Default() && d.psg.Valid()
    ensures d.Note(Tone1) == d.Note(Tone2) == d.Note(Tone3) == None
  {
    Detector(Default(), Default(), None, None, None)
  }

  /** The events of a run together with the state it ends in. */
  datatype Trace = Trace(detector: Detector, events: seq<Event>)

  /** The note a channel tracks after a wait: the detector's answer if it
      reports a change, `note` (the note tracked so far) otherwise.  The
      current attenuation is passed as both the last and the current one, as
      at the call sites of the source. */
  function TrackedNote(pitch: bv16 -> int, lastFreq: bv16, freq: bv16, attenuation: bv8, note: Option<int>): Option<int>
  {
    match CheckChannelChanged(pitch, lastFreq, freq, attenuation, attenuation)
    case Some(n) => n
    case None => note
  }

  /** `TrackedNote` for tone channel `c` of the detector `d`. */
  function ChannelNote(pitch: bv16 -> int, d: Detector, c: LatchedChannel): Option<int>
  {
    TrackedNote(pitch, d.lastPsg.Frequency(c), d.psg.Frequency(c), d.psg.Attenuation(c), d.Note(c))
  }

  /** The event of channel `c`, if its tracked note went from `before` to a different `after`. */
  function ChannelEvents(c: LatchedChannel, before: Option<int>, after: Option<int>): seq<Event>
  {
    if before != after then [Event(c, after)] else []
  }

  /** A wait: diff the three tone channels in order, emit what changed, and
      make the current chip state the baseline. */
  function Tick(pitch: bv16 -> int, d: Detector): (t: Trace)
    ensures t.detector.psg == d.psg && t.detector.lastPsg == d.psg
    ensures |t.events| <= 3
  {
    var n1 := ChannelNote(pitch, d, Tone1);
    var n2 := ChannelNote(pitch, d, Tone2);
    var n3 := ChannelNote(pitch, d, Tone3);
    Trace(Detector(d.psg, d.psg, n1, n2, n3),
          ChannelEvents(Tone1, d.ch1Note, n1) + ChannelEvents(Tone2, d.ch2Note, n2) + ChannelEvents(Tone3, d.ch3Note, n3))
  }

  /** One command of the loop.  A chip write updates the current state; a
      wait runs the diff; every other command is ignored. */
  function Step(pitch: bv16 -> int, d: Detector, cmd: Command): (t: Trace)
    ensures !IsWait(cmd) ==>
      (t.events == [] && t.detector.lastPsg == d.lastPsg &&
       t.detector.Note(Tone1) == d.Note(Tone1) && t.detector.Note(Tone2) == d.Note(Tone2) &&
       t.detector.Note(Tone3) == d.Note(Tone3) &&
       t.detector.psg == (if cmd.PsgWrite? then d.psg.Update(cmd.value) else d.psg))
    ensures IsWait(cmd) ==> t.detector.psg == d.psg && t.detector.lastPsg == d.psg
    ensures d.psg.Valid() && d.lastPsg.Valid() ==> t.detector.psg.Valid() && t.detector.lastPsg.Valid()
  {
    var d' := if cmd.PsgWrite? then d.(psg := d.psg.Update(cmd.value)) else d;
    if IsWait(cmd) then Tick(pitch, d') else Trace(d', [])
  }

  /** The loop run over `cmds` from `d`: the final state and every event in order. */
  function ReplayFrom(pitch: bv16 -> int, d: Detector, cmds: seq<Command>): (r: Trace)
    ensures |r.events| <= 3 * |cmds|
  {
    if cmds == [] then Trace(d, [])
    else
      var t := ReplayFrom(pitch, d, cmds[..|cmds| - 1]);
      var s := Step(pitch, t.detector, cmds[|cmds| - 1]);
      Trace(s.detector, t.events + s.events)
  }

  /** One of the three per-channel blocks the loop runs at a wait: update
      the tracked note from the detector's answer, and emit an event when it
      differs from the note tracked before. */
  method DiffChannel(pitch: bv16 -> int, c: LatchedChannel, lastFreq: bv16, freq: bv16, attenuation: bv8, note: Option<int>)
    returns (newNote: Option<int>, emitted: seq<Event>)
    ensures newNote == TrackedNote(pitch, lastFreq, freq, attenuation, note)
    ensures emitted == ChannelEvents(c, note, newNote)
  {
    var lastNote := note;
    newNote := note;
    match CheckChannelChanged(pitch, lastFreq, freq, attenuation, attenuation) {
      case Some(n) => newNote := n;
      case None =>
    }
    emitted := [];
    if lastNote != newNote {
      emitted := [Event(c, newNote)];
    }
  }

  /** The loop of `main` over `commands`, with the events it prints
      collected in order.  Also returns the loop's final variables. */
  method ProcessCommands(pitch: bv16 -> int, commands: seq<Command>)
    returns (events: seq<Event>, psg: Sn76489an, lastPsg: Sn76489an,
             ch1Note: Option<int>, ch2Note: Option<int>, ch3Note: Option<int>)
    ensures Trace(Detector(psg, lastPsg, ch1Note, ch2Note, ch3Note), events) == ReplayFrom(pitch, Initial(), commands)
  {
    psg, lastPsg := Default(), Default();
    ch1Note, ch2Note, ch3Note := None, None, None;
    events := [];
    for i := 0 to |commands|
      invariant Trace(Detector(psg, lastPsg, ch1Note, ch2Note, ch3Note), events) == ReplayFrom(pitch, Initial(), commands[..i])
    {
      var cmd := commands[i];
      ghost var before := Trace(Detector(psg, lastPsg, ch1Note, ch2Note, ch3Note), events);
      ghost var step := Step(pitch, before.detector, cmd);
      match cmd {
        case PsgWrite(value) => psg := psg.Update(value);
        case _ =>
      }
      if IsWait(cmd) {
        ghost var written := Detector(psg, lastPsg, ch1Note, ch2Note, ch3Note);
        assert step == Tick(pitch, written);
        var e1, e2, e3;
        ch1Note, e1 := DiffChannel(pitch, Tone1, lastPsg.tone1Frequency, psg.tone1Frequency, psg.tone1Attenuation, ch1Note);
        ch2Note, e2 := DiffChannel(pitch, Tone2, lastPsg.tone2Frequency, psg.tone2Frequency, psg.tone2Attenuation, ch2Note);
        ch3Note, e3 := DiffChannel(pitch, Tone3, lastPsg.tone3Frequency, psg.tone3Frequency, psg.tone3Attenuation, ch3Note);
        assert Tick(pitch, written).events == e1 + e2 + e3;
        events := events + (e1 + e2 + e3);
        lastPsg := psg;
      } else {
        assert before.events + step.events == events;
      }
      assert Trace(Detector(psg, lastPsg, ch1Note, ch2Note, ch3Note), events) ==
        Trace(step.detector, before.events + step.events);
      assert commands[..i + 1][..i] == commands[..i];
    }
    assert commands[..|commands|] == commands;
  }
}
