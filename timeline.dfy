/** The event timeline of a playback: every parsed note starts when all the notes
    before it have finished, and the piece ends when the last one has. */
module Timeline {
  import opened MeiScore

  /** The length in seconds of a Tone.js duration
      at a tempo (beats per minute). Tone.js computes it; the model takes it as given. */
  type SecondsOf = (real, string) -> real

  /** Durations never run backwards. */
  ghost predicate NonNegative(secondsOf: SecondsOf) {
    forall bpm, duration :: secondsOf(bpm, duration) >= 0.0
  }

  /** A note together with its start offset, in seconds from the start of the part. */
  datatype TimedEvent = TimedEvent(time: real, note: ParsedNote)

  /** The total length of a sequence of notes played back to back. */
  function TotalSeconds(notes: seq<ParsedNote>, bpm: real, secondsOf: SecondsOf): real
    decreases |notes|
  {
    if notes == [] then 0.0
    else TotalSeconds(notes[..|notes| - 1], bpm, secondsOf) + secondsOf(bpm, notes[|notes| - 1].duration)
  }

  /** The timeline of a note list: note k starts after notes 0..k-1. */
  function Events(notes: seq<ParsedNote>, bpm: real, secondsOf: SecondsOf): seq<TimedEvent>
  {
    seq(|notes|, k requires 0 <= k < |notes| => TimedEvent(TotalSeconds(notes[..k], bpm, secondsOf), notes[k]))
  }

  /** The loop of `playScore` that builds the events with a running clock, followed
      by the auto-stop time: the last event's start plus its own length, or 0. */
  method BuildTimeline(notes: seq<ParsedNote>, bpm: real, secondsOf: SecondsOf)
    returns (events: seq<TimedEvent>, totalDuration: real)
    ensures events == Events(notes, bpm, secondsOf)
    ensures totalDuration == TotalSeconds(notes, bpm, secondsOf)
  {
    events := [];
    var currentTime := 0.0;
    var i := 0;
    while i < |notes|
      invariant 0 <= i <= |notes|
      invariant events == Events(notes, bpm, secondsOf)[..i]
      invariant currentTime == TotalSeconds(notes[..i], bpm, secondsOf)
    {
      assert Events(notes, bpm, secondsOf)[i] == TimedEvent(currentTime, notes[i]);
      assert Events(notes, bpm, secondsOf)[..i + 1] == events + [TimedEvent(currentTime, notes[i])];
      events := events + [TimedEvent(currentTime, notes[i])];
      var noteDuration := secondsOf(bpm, notes[i].duration);
      assert TotalSeconds(notes[..i + 1], bpm, secondsOf) == currentTime + noteDuration by {
        assert notes[..i + 1][..i] == notes[..i];
      }
      currentTime := currentTime + noteDuration;
      i := i + 1;
    }
    assert events == Events(notes, bpm, secondsOf);
    if |events| > 0 {
      var lastEvent := events[|events| - 1];
      totalDuration := lastEvent.time + secondsOf(bpm, lastEvent.note.duration);
      assert notes[..|notes|] == notes;
    } else {
      totalDuration := 0.0;
    }
  }

  /** Each event starts exactly when the previous one ends, the first at 0. */
  lemma EventsAreBackToBack(notes: seq<ParsedNote>, bpm: real, secondsOf: SecondsOf)
    ensures |Events(notes, bpm, secondsOf)| == |notes|
    ensures |notes| > 0 ==> Events(notes, bpm, secondsOf)[0].time == 0.0
    ensures forall k :: 0 <= k < |notes| - 1 ==>
              Events(notes, bpm, secondsOf)[k + 1].time ==
              Events(notes, bpm, secondsOf)[k].time + secondsOf(bpm, notes[k].duration)
  {
    forall k | 0 <= k < |notes| - 1
      ensures TotalSeconds(notes[..k + 1], bpm, secondsOf) ==
              TotalSeconds(notes[..k], bpm, secondsOf) + secondsOf(bpm, notes[k].duration)
    {
      assert notes[..k + 1][..k] == notes[..k];
    }
  }

  /** The auto-stop time is the end of the last event, which is the total length. */
  lemma AutoStopAtEnd(notes: seq<ParsedNote>, bpm: real, secondsOf: SecondsOf)
    requires |notes| > 0
    ensures var last := Events(notes, bpm, secondsOf)[|notes| - 1];
            last.time + secondsOf(bpm, last.note.duration) == TotalSeconds(notes, bpm, secondsOf)
  {
  }

  lemma {:induction false} PrefixTotalsGrow(notes: seq<ParsedNote>, bpm: real, secondsOf: SecondsOf, j: nat, k: nat)
    requires NonNegative(secondsOf)
    requires j <= k <= |notes|
    ensures TotalSeconds(notes[..j], bpm, secondsOf) <= TotalSeconds(notes[..k], bpm, secondsOf)
    decreases k - j
  {
    if j < k {
      PrefixTotalsGrow(notes, bpm, secondsOf, j, k - 1);
      assert notes[..k][..k - 1] == notes[..k - 1];
    }
  }

  /** With non-negative durations the start offsets never decrease and never exceed
      the auto-stop time. */
  lemma EventsNondecreasing(notes: seq<ParsedNote>, bpm: real, secondsOf: SecondsOf)
    requires NonNegative(secondsOf)
    ensures forall j, k :: 0 <= j <= k < |notes| ==>
              0.0 <= Events(notes, bpm, secondsOf)[j].time <= Events(notes, bpm, secondsOf)[k].time
    ensures forall k :: 0 <= k < |notes| ==>
              Events(notes, bpm, secondsOf)[k].time <= TotalSeconds(notes, bpm, secondsOf)
  {
    forall j, k | 0 <= j <= k < |notes|
      ensures 0.0 <= TotalSeconds(notes[..j], bpm, secondsOf) <= TotalSeconds(notes[..k], bpm, secondsOf)
    {
      PrefixTotalsGrow(notes, bpm, secondsOf, 0, j);
      PrefixTotalsGrow(notes, bpm, secondsOf, j, k);
    }
    forall k | 0 <= k < |notes|
      ensures TotalSeconds(notes[..k], bpm, secondsOf) <= TotalSeconds(notes, bpm, secondsOf)
    {
      PrefixTotalsGrow(notes, bpm, secondsOf, k, |notes|);
      assert notes[..|notes|] == notes;
    }
  }

  /** Three notes C4 and D4 (quarters) then E4 (half), at a tempo where a quarter
      lasts half a second and a half a second: events at 0, 0.5 and 1.0, end at 2.0. */
  lemma ThreeNoteScenario(secondsOf: SecondsOf)
    requires secondsOf(120.0, "4n") == 0.5 && secondsOf(120.0, "2n") == 1.0
    ensures var notes := [ParsedNote("C4", "4n", "n1"), ParsedNote("D4", "4n", "n2"), ParsedNote("E4", "2n", "n3")];
            var evs := Events(notes, 120.0, secondsOf);
            && |evs| == 3
            && evs[0].time == 0.0 && evs[1].time == 0.5 && evs[2].time == 1.0
            && TotalSeconds(notes, 120.0, secondsOf) == 2.0
  {
    var notes := [ParsedNote("C4", "4n", "n1"), ParsedNote("D4", "4n", "n2"), ParsedNote("E4", "2n", "n3")];
    assert notes[..1] == [notes[0]] && notes[..2] == [notes[0], notes[1]];
    assert notes[..2][..1] == notes[..1] && notes[..3] == notes;
  }
}
