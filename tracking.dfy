/** What the command loop of `main` (src/main.rs) guarantees about the note
    events it prints: per wait, per channel and over a whole run. */
module Tracking {
  import opened Psg
  import opened Notes

  /** The notes of the events of channel `c`, in order. */
  function NotesOf(events: seq<Event>, c: LatchedChannel): seq<Option<int>>
  {
    if events == [] then []
    else (if events[0].channel == c then [events[0].note] else []) + NotesOf(events[1..], c)
  }

  lemma {:induction false} NotesOfAppend(a: seq<Event>, b: seq<Event>, c: LatchedChannel)
    ensures NotesOf(a + b, c) == NotesOf(a, c) + NotesOf(b, c)
  {
    if a == [] {
      assert a + b == b;
    } else {
      assert (a + b)[0] == a[0];
      assert (a + b)[1..] == a[1..] + b;
      NotesOfAppend(a[1..], b, c);
      var head := if a[0].channel == c then [a[0].note] else [];
      assert head + (NotesOf(a[1..], c) + NotesOf(b, c)) == (head + NotesOf(a[1..], c)) + NotesOf(b, c);
    }
  }

  /** Each note in `notes` differs from the one before it, the first from `start`. */
  predicate EdgeTriggered(start: Option<int>, notes: seq<Option<int>>)
  {
    (notes != [] ==> notes[0] != start) &&
    forall i :: 0 < i < |notes| ==> notes[i] != notes[i - 1]
  }

  /** The last note of `notes`, or `start` when there is none. */
  function LastOr(start: Option<int>, notes: seq<Option<int>>): Option<int>
  {
    if notes == [] then start else notes[|notes| - 1]
  }

  /** At a wait, the note of channel `c` changes only when the channel is
      audible (attenuation not 15) and its divider differs from the one seen
      at the previous wait; it then becomes the note of the new divider.
      The baseline's attenuation plays no part. */
  lemma TickNote(pitch: bv16 -> int, d: Detector, c: LatchedChannel)
    ensures Tick(pitch, d).detector.Note(c) ==
      if d.psg.Attenuation(c) != 0xF && d.lastPsg.Frequency(c) != d.psg.Frequency(c)
      then GetNote(pitch, d.psg.Frequency(c)) else d.Note(c)
  {
    SameAttenuationDecision(pitch, d.lastPsg.Frequency(c), d.psg.Frequency(c), d.psg.Attenuation(c));
    match c
    case Tone1 =>
    case Tone2 =>
    case Tone3 =>
  }

  /** A wait emits at most one event for channel `c`, exactly when the
      channel's tracked note changed, and that event carries the new note. */
  lemma TickEvents(pitch: bv16 -> int, d: Detector, c: LatchedChannel)
    ensures var t := Tick(pitch, d);
      NotesOf(t.events, c) == if d.Note(c) != t.detector.Note(c) then [t.detector.Note(c)] else []
  {
    var t := Tick(pitch, d);
    var e1 := ChannelEvents(Tone1, d.ch1Note, t.detector.ch1Note);
    var e2 := ChannelEvents(Tone2, d.ch2Note, t.detector.ch2Note);
    var e3 := ChannelEvents(Tone3, d.ch3Note, t.detector.ch3Note);
    assert t.events == e1 + e2 + e3;
    NotesOfAppend(e1 + e2, e3, c);
    NotesOfAppend(e1, e2, c);
  }

  /** A silent channel (attenuation 15) keeps its note and emits nothing at
      a wait, whatever its attenuation was before: turning a channel off
      never produces a "note off" event. */
  lemma SilentChannelEmitsNothing(pitch: bv16 -> int, d: Detector, c: LatchedChannel)
    requires d.psg.Attenuation(c) == 0xF
    ensures Tick(pitch, d).detector.Note(c) == d.Note(c)
    ensures NotesOf(Tick(pitch, d).events, c) == []
  {
    TickNote(pitch, d, c);
    TickEvents(pitch, d, c);
  }

  /** Channels are independent: two detectors that agree on channel `c`
      (its divider now and at the last wait, its attenuation, its tracked
      note) give the same note and the same events for `c` at a wait,
      whatever the other channels hold. */
  lemma TickIndependent(pitch: bv16 -> int, d1: Detector, d2: Detector, c: LatchedChannel)
    requires d1.psg.Frequency(c) == d2.psg.Frequency(c) && d1.lastPsg.Frequency(c) == d2.lastPsg.Frequency(c)
    requires d1.psg.Attenuation(c) == d2.psg.Attenuation(c) && d1.Note(c) == d2.Note(c)
    ensures Tick(pitch, d1).detector.Note(c) == Tick(pitch, d2).detector.Note(c)
    ensures NotesOf(Tick(pitch, d1).events, c) == NotesOf(Tick(pitch, d2).events, c)
  {
    TickNote(pitch, d1, c);
    TickNote(pitch, d2, c);
    TickEvents(pitch, d1, c);
    TickEvents(pitch, d2, c);
  }

  /** Any command emits at most one event per channel, exactly when that
      channel's tracked note changed. */
  lemma StepEvents(pitch: bv16 -> int, d: Detector, cmd: Command, c: LatchedChannel)
    ensures var t := Step(pitch, d, cmd);
      NotesOf(t.events, c) == if d.Note(c) != t.detector.Note(c) then [t.detector.Note(c)] else []
  {
    if IsWait(cmd) {
      TickEvents(pitch, d, c);
    }
  }

  /** Over any run, the events of channel `c` form an edge-triggered stream:
      each carries a note different from the one before it (the first one
      differs from the note tracked at the start), and the last one is the
      note tracked at the end. */
  lemma {:induction false} ReplayEdgeTriggered(pitch: bv16 -> int, d: Detector, cmds: seq<Command>, c: LatchedChannel)
    ensures var t := ReplayFrom(pitch, d, cmds);
      EdgeTriggered(d.Note(c), NotesOf(t.events, c)) && LastOr(d.Note(c), NotesOf(t.events, c)) == t.detector.Note(c)
  {
    if cmds != [] {
      var t := ReplayFrom(pitch, d, cmds[..|cmds| - 1]);
      var s := Step(pitch, t.detector, cmds[|cmds| - 1]);
      ReplayEdgeTriggered(pitch, d, cmds[..|cmds| - 1], c);
      NotesOfAppend(t.events, s.events, c);
      StepEvents(pitch, t.detector, cmds[|cmds| - 1], c);
      EdgeTriggeredExtend(d.Note(c), NotesOf(t.events, c), t.detector.Note(c), s.detector.Note(c));
    }
  }

  /** Appending the next tracked note when it differs keeps a stream edge-triggered. */
  lemma EdgeTriggeredExtend(start: Option<int>, notes: seq<Option<int>>, before: Option<int>, after: Option<int>)
    requires EdgeTriggered(start, notes) && LastOr(start, notes) == before
    ensures var next := notes + (if before != after then [after] else []);
      EdgeTriggered(start, next) && LastOr(start, next) == after
  {
    if before == after {
      assert notes + [] == notes;
    } else {
      var next := notes + [after];
      forall i | 0 < i < |next|
        ensures next[i] != next[i - 1]
      {
        if i < |notes| {
          assert next[i] == notes[i] && next[i - 1] == notes[i - 1];
        }
      }
      assert EdgeTriggered(start, next);
    }
  }

  /** Every chip state the loop holds keeps its registers within their widths. */
  lemma {:induction false} ReplayValid(pitch: bv16 -> int, d: Detector, cmds: seq<Command>)
    requires d.psg.Valid() && d.lastPsg.Valid()
    ensures ReplayFrom(pitch, d, cmds).detector.psg.Valid() && ReplayFrom(pitch, d, cmds).detector.lastPsg.Valid()
  {
    if cmds != [] {
      ReplayValid(pitch, d, cmds[..|cmds| - 1]);
    }
  }

  /** The chip writes of `bytes`, in order, as commands. */
  function Writes(bytes: seq<bv8>): (cmds: seq<Command>)
    ensures |cmds| == |bytes|
    ensures forall i :: 0 <= i < |bytes| ==> cmds[i] == PsgWrite(bytes[i])
  {
    seq(|bytes|, i requires 0 <= i < |bytes| => PsgWrite(bytes[i]))
  }

  /** Chip writes alone emit nothing and leave the baseline and the notes
      alone: they only fold into the current chip state. */
  lemma {:induction false} WritesFold(pitch: bv16 -> int, d: Detector, bytes: seq<bv8>)
    ensures ReplayFrom(pitch, d, Writes(bytes)) == Trace(d.(psg := ApplyAll(d.psg, bytes)), [])
  {
    if bytes != [] {
      var pre := bytes[..|bytes| - 1];
      assert Writes(bytes)[..|bytes| - 1] == Writes(pre);
      WritesFold(pitch, d, pre);
    }
  }

  /** Writes between two waits are coalesced: the wait sees only their net
      effect on the chip state, however many there were. */
  lemma WritesThenWait(pitch: bv16 -> int, d: Detector, bytes: seq<bv8>, wait: Command)
    requires IsWait(wait)
    ensures ReplayFrom(pitch, d, Writes(bytes) + [wait]) == Tick(pitch, d.(psg := ApplyAll(d.psg, bytes)))
  {
    var cmds := Writes(bytes) + [wait];
    assert cmds[..|cmds| - 1] == Writes(bytes);
    WritesFold(pitch, d, bytes);
  }

  /** Tone 1's attenuation set to 0, a wait, then three divider writes and
      a wait: one "note on" at the last wait, with the last divider written. */
  lemma ThreeWritesOneNoteOn(pitch: bv16 -> int)
    ensures ReplayFrom(pitch, Initial(),
      [PsgWrite(0x90), Wait735Samples, PsgWrite(0x81), PsgWrite(0x82), PsgWrite(0x83), Wait735Samples]).events
      == [Event(Tone1, Some(pitch(3)))]
  {
    var first := [PsgWrite(0x90), Wait735Samples];
    var second := [PsgWrite(0x81), PsgWrite(0x82), PsgWrite(0x83), Wait735Samples];
    assert first + second == [PsgWrite(0x90), Wait735Samples, PsgWrite(0x81), PsgWrite(0x82), PsgWrite(0x83), Wait735Samples];
    ReplayFromAppend(pitch, Initial(), first, second);
    SwitchOnAtZero(pitch);
    ThreeWritesAfterSwitchOn(pitch);
  }

  /** The first half of `ThreeWritesOneNoteOn`: switching tone 1 on while
      its divider is 0 changes no tracked note. */
  lemma SwitchOnAtZero(pitch: bv16 -> int)
    ensures var p := Default().Update(0x90);
      ReplayFrom(pitch, Initial(), [PsgWrite(0x90), Wait735Samples]) == Trace(Detector(p, p, None, None, None), [])
  {
    assert [PsgWrite(0x90), Wait735Samples] == Writes([0x90]) + [Wait735Samples];
    WritesThenWait(pitch, Initial(), [0x90], Wait735Samples);
    assert [0x90][..0] == [];
    var d := Initial().(psg := ApplyAll(Initial().psg, [0x90]));
    TickNote(pitch, d, Tone1);
    TickNote(pitch, d, Tone2);
    TickNote(pitch, d, Tone3);
  }

  /** The second half of `ThreeWritesOneNoteOn`: three dividers written to
      the audible tone 1, then a wait, give one "note on" for divider 3. */
  lemma ThreeWritesAfterSwitchOn(pitch: bv16 -> int)
    ensures var p := Default().Update(0x90);
      ReplayFrom(pitch, Detector(p, p, None, None, None),
        [PsgWrite(0x81), PsgWrite(0x82), PsgWrite(0x83), Wait735Samples]).events == [Event(Tone1, Some(pitch(3)))]
  {
    var p := Default().Update(0x90);
    var bytes: seq<bv8> := [0x81, 0x82, 0x83];
    assert [PsgWrite(0x81), PsgWrite(0x82), PsgWrite(0x83), Wait735Samples] == Writes(bytes) + [Wait735Samples];
    WritesThenWait(pitch, Detector(p, p, None, None, None), bytes, Wait735Samples);
    ThreeDividerWrites();
    var q := ApplyAll(p, bytes);
    var d := Detector(q, p, None, None, None);
    TickNote(pitch, d, Tone1);
    TickNote(pitch, d, Tone2);
    TickNote(pitch, d, Tone3);
  }

  /** The chip states of `ThreeWritesAfterSwitchOn`: tone 1 audible at
      power-on, then dividers 1, 2 and 3 written with single latch bytes. */
  lemma ThreeDividerWrites()
    ensures Default().Update(0x90) == Sn76489an(0, 0, 0, 0, 0, 0, 0, 0, Tone1)
    ensures ApplyAll(Default().Update(0x90), [0x81, 0x82, 0x83]) == Sn76489an(3, 0, 0, 0, 0, 0, 0, 0, Tone1)
  {
    var p := Default().Update(0x90);
    var bytes: seq<bv8> := [0x81, 0x82, 0x83];
    assert bytes[..2] == [0x81, 0x82] && [0x81, 0x82][..1] == [0x81] && [0x81][..0] == [];
    assert p == Default();
    assert p.Update(0x81) == Sn76489an(1, 0, 0, 0, 0, 0, 0, 0, Tone1);
    assert p.Update(0x81).Update(0x82) == Sn76489an(2, 0, 0, 0, 0, 0, 0, 0, Tone1);
    assert ApplyAll(p, [0x81]) == p.Update(0x81);
    assert ApplyAll(p, [0x81, 0x82]) == p.Update(0x81).Update(0x82);
  }

  /** A wait at which no divider differs from the baseline emits nothing and
      keeps every note: it only makes the current chip state the baseline.
      Attenuation changes alone, on or off, are never reported. */
  lemma UnchangedDividersOnlyRebaseline(pitch: bv16 -> int, d: Detector)
    requires d.psg.tone1Frequency == d.lastPsg.tone1Frequency
    requires d.psg.tone2Frequency == d.lastPsg.tone2Frequency
    requires d.psg.tone3Frequency == d.lastPsg.tone3Frequency
    ensures Tick(pitch, d) == Trace(d.(lastPsg := d.psg), [])
  {
    TickNote(pitch, d, Tone1);
    TickNote(pitch, d, Tone2);
    TickNote(pitch, d, Tone3);
  }

  /** Silence tone 1, wait, write divider 0 to it, wait, make it loudest,
      wait: no event at all, since tone 1's divider never changes. */
  lemma SilenceThenSoundAtZero(pitch: bv16 -> int)
    ensures ReplayFrom(pitch, Initial(),
      [PsgWrite(0x9F), WaitNSamples(100), PsgWrite(0x80), PsgWrite(0x00), WaitNSamples(100),
       PsgWrite(0x90), WaitNSamples(100)]).events == []
  {
    var wait := WaitNSamples(100);
    var seg1, seg2, seg3 := Writes([0x9F]) + [wait], Writes([0x80, 0x00]) + [wait], Writes([0x90]) + [wait];
    assert seg1 + seg2 + seg3 == [PsgWrite(0x9F), wait, PsgWrite(0x80), PsgWrite(0x00), wait, PsgWrite(0x90), wait];
    assert [0x9F][..0] == [] && [0x80, 0x00][..1] == [0x80] && [0x80][..0] == [] && [0x90][..0] == [];

    // tone 1 silenced
    var p1 := Sn76489an(0, 0xF, 0, 0, 0, 0, 0, 0, Tone1);
    assert ApplyAll(Default(), [0x9F]) == p1;
    WritesThenWait(pitch, Initial(), [0x9F], wait);
    UnchangedDividersOnlyRebaseline(pitch, Initial().(psg := p1));
    var d1 := Detector(p1, p1, None, None, None);

    // divider 0 written in two bytes: nothing changes
    assert ApplyAll(p1, [0x80]) == p1;
    assert ApplyAll(p1, [0x80, 0x00]) == p1;
    WritesThenWait(pitch, d1, [0x80, 0x00], wait);
    UnchangedDividersOnlyRebaseline(pitch, d1);

    // tone 1 at full volume
    var p3 := Default();
    assert ApplyAll(p1, [0x90]) == p3;
    WritesThenWait(pitch, d1, [0x90], wait);
    UnchangedDividersOnlyRebaseline(pitch, d1.(psg := p3));

    ReplayFromAppend(pitch, Initial(), seg1, seg2);
    ReplayFromAppend(pitch, Initial(), seg1 + seg2, seg3);
  }

  /** The loop of `main` over `cmds` from `d`, for any step function: a
      second definition of the loop that exists only as a proof device, so
      that `ReplayFromAppend` is proved without unfolding `Step`. */
  function Fold(step: (Detector, Command) -> Trace, d: Detector, cmds: seq<Command>): Trace
  {
    if cmds == [] then Trace(d, [])
    else
      var t := Fold(step, d, cmds[..|cmds| - 1]);
      var s := step(t.detector, cmds[|cmds| - 1]);
      Trace(s.detector, t.events + s.events)
  }

  /** `Step` as a step function. */
  function StepOf(pitch: bv16 -> int): (Detector, Command) -> Trace
  {
    (x: Detector, cmd: Command) => Step(pitch, x, cmd)
  }

  /** `ReplayFrom` is `Fold` with `Step`. */
  lemma {:induction false} ReplayFromIsFold(pitch: bv16 -> int, d: Detector, cmds: seq<Command>)
    ensures ReplayFrom(pitch, d, cmds) == Fold(StepOf(pitch), d, cmds)
  {
    if cmds != [] {
      ReplayFromIsFold(pitch, d, cmds[..|cmds| - 1]);
    }
  }

  /** Folding `a` then `b` is folding `a + b`. */
  lemma {:induction false} FoldAppend(step: (Detector, Command) -> Trace, d: Detector, a: seq<Command>, b: seq<Command>)
    ensures var ta := Fold(step, d, a); var tb := Fold(step, ta.detector, b);
      Fold(step, d, a + b) == Trace(tb.detector, ta.events + tb.events)
  {
    if b == [] {
      assert a + b == a;
    } else {
      var b', cmd := b[..|b| - 1], b[|b| - 1];
      FoldAppend(step, d, a, b');
      assert (a + b)[..|a + b| - 1] == a + b';
      assert (a + b)[|a + b| - 1] == cmd;
      var ta := Fold(step, d, a);
      var tb' := Fold(step, ta.detector, b');
      var s := step(tb'.detector, cmd);
      assert (ta.events + tb'.events) + s.events == ta.events + (tb'.events + s.events);
    }
  }

  /** Running `a` then `b` is running `a + b`. */
  lemma ReplayFromAppend(pitch: bv16 -> int, d: Detector, a: seq<Command>, b: seq<Command>)
    ensures var ta := ReplayFrom(pitch, d, a); var tb := ReplayFrom(pitch, ta.detector, b);
      ReplayFrom(pitch, d, a + b) == Trace(tb.detector, ta.events + tb.events)
  {
    var ta := ReplayFrom(pitch, d, a);
    ReplayFromIsFold(pitch, d, a);
    ReplayFromIsFold(pitch, ta.detector, b);
    ReplayFromIsFold(pitch, d, a + b);
    FoldAppend(StepOf(pitch), d, a, b);
  }
}
