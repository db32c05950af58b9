/** The playback controller of the audio player: three state flags (playing, paused,
    stopped), the Tone.js transport it drives, the part holding the current timeline,
    the synthesiser and the caller's highlight callbacks.

    The pure functions below say what each operation does to the controller's state
    (a `Player` value) and which outside effects it causes; the class `AudioPlayer`
    holds the same state in fields and its methods are proved to follow them. */
module Playback {
  import opened Optional
  import opened MeiScore
  import opened Timeline

  /** The state of the transport. */
  datatype TransportState = TransportStopped | TransportStarted | TransportPaused

  /** A callback waiting on the transport's timeline. */
  datatype Scheduled =
    | AutoStop(at: real)                   // the one-off stop at the end of the score
    | PartEvents(events: seq<TimedEvent>)  // the events a started Tone.Part has put on the transport

  /** The transport as the controller uses it: its state, its tempo and what is
      scheduled on it (`cancel` empties the list). */
  datatype Transport = Transport(state: TransportState, bpm: real, scheduled: seq<Scheduled>)

  /** Identity of a callback the caller registered. */
  type CallbackId = nat

  /** An effect outside the controller, in the order it happens. */
  datatype Effect =
    | Triggered(pitch: string, duration: string, time: Option<real>)  // the synthesiser plays a note
    | HighlightRemoved(callback: CallbackId)
    | Highlighted(callback: CallbackId, noteId: string)

  /** The controller's state. `synth` says the synthesiser exists, `contextRunning`
      that the audio context runs; `part` is the current Tone.Part's events, or null. */
  datatype Player = Player(
    playing: bool,
    paused: bool,
    stopped: bool,
    highlight: Option<CallbackId>,
    removeHighlight: Option<CallbackId>,
    synth: bool,
    contextRunning: bool,
    part: Option<seq<TimedEvent>>,
    transport: Transport)

  /** The controller's invariant: exactly one flag is true and it agrees with the
      transport; a stopped controller holds no part and nothing is scheduled; an active
      one holds one part, and the transport holds that part's events and one auto-stop,
      so at most one session exists. */
  ghost predicate Consistent(p: Player) {
    && ((p.playing && !p.paused && !p.stopped) ||
        (!p.playing && p.paused && !p.stopped) ||
        (!p.playing && !p.paused && p.stopped))
    && (p.playing <==> p.transport.state == TransportStarted)
    && (p.paused <==> p.transport.state == TransportPaused)
    && (p.stopped <==> p.part.None?)
    && (p.stopped ==> p.transport.scheduled == [])
    && (!p.stopped ==> p.synth && p.contextRunning)
    && (p.part.Some? ==>
          |p.transport.scheduled| == 2 &&
          p.transport.scheduled[0].AutoStop? &&
          p.transport.scheduled[1] == PartEvents(p.part.value))
  }

  /** A new controller: stopped, no callbacks, no synthesiser, and the transport
      stopped with nothing scheduled. */
  function Initial(bpm: real): (p: Player)
    ensures Consistent(p) && p.stopped && !p.playing && !p.paused
  {
    Player(false, false, true, None, None, false, false, None, Transport(TransportStopped, bpm, []))
  }

  /** `stopScore`: from any state, drop the part, stop the transport and cancel
      everything scheduled on it; the controller is then stopped. */
  function AfterStop(p: Player): (r: Player)
    ensures Consistent(r)
    ensures r.stopped && !r.playing && !r.paused
    ensures r.part.None? && r.transport.state == TransportStopped && r.transport.scheduled == []
    ensures r.transport.bpm == p.transport.bpm
    ensures r.highlight == p.highlight && r.removeHighlight == p.removeHighlight
    ensures r.synth == p.synth && r.contextRunning == p.contextRunning
  {
    p.(playing := false, paused := false, stopped := true, part := None,
       transport := p.transport.(state := TransportStopped, scheduled := []))
  }

  /** The effects of `stopScore`: the remove-highlight callback, if registered. */
  function StopEffects(p: Player): seq<Effect> {
    if p.removeHighlight.Some? then [HighlightRemoved(p.removeHighlight.value)] else []
  }

  /** `pauseScore`: acts only on a started transport. */
  function AfterPause(p: Player): (r: Player)
    ensures Consistent(p) ==> Consistent(r)
    ensures p.transport.state != TransportStarted ==> r == p
    ensures p.transport.state == TransportStarted ==>
              r.paused && !r.playing && !r.stopped &&
              r.transport == p.transport.(state := TransportPaused) && r.part == p.part
    ensures r.(playing := p.playing, paused := p.paused, stopped := p.stopped, transport := p.transport) == p
  {
    if p.transport.state == TransportStarted then
      p.(playing := false, paused := true, stopped := false, transport := p.transport.(state := TransportPaused))
    else p
  }

  /** `resumeScore`: acts only on a paused transport. */
  function AfterResume(p: Player): (r: Player)
    ensures Consistent(p) ==> Consistent(r)
    ensures p.transport.state != TransportPaused ==> r == p
    ensures p.transport.state == TransportPaused ==>
              r.playing && !r.paused && !r.stopped &&
              r.transport == p.transport.(state := TransportStarted) && r.part == p.part
    ensures r.(playing := p.playing, paused := p.paused, stopped := p.stopped, transport := p.transport) == p
  {
    if p.transport.state == TransportPaused then
      p.(playing := true, paused := false, stopped := false, transport := p.transport.(state := TransportStarted))
    else p
  }

  /** `updateTempo`: only the transport's tempo changes. */
  function AfterUpdateTempo(p: Player, newTempo: real): (r: Player)
    ensures Consistent(p) ==> Consistent(r)
    ensures r.transport.bpm == newTempo
    ensures r.(transport := p.transport) == p
    ensures r.transport.state == p.transport.state && r.transport.scheduled == p.transport.scheduled
  {
    p.(transport := p.transport.(bpm := newTempo))
  }

  /** `setHighlightCallbacks`: the new pair replaces the old one. */
  function AfterSetHighlightCallbacks(p: Player, highlight: Option<CallbackId>, removeHighlight: Option<CallbackId>): (r: Player)
    ensures Consistent(p) ==> Consistent(r)
    ensures r.highlight == highlight && r.removeHighlight == removeHighlight
    ensures r.(highlight := p.highlight, removeHighlight := p.removeHighlight) == p
  {
    p.(highlight := highlight, removeHighlight := removeHighlight)
  }

  /** `initializeTone`: start the audio context unless it runs (this may fail), then
      make sure a synthesiser exists. None when the context cannot start. */
  function AfterInitializeTone(p: Player, startSucceeds: bool): (r: Option<Player>)
    ensures r.None? <==> !p.contextRunning && !startSucceeds
    ensures r.Some? ==> r.value == p.(contextRunning := true, synth := true)
  {
    if !p.contextRunning && !startSucceeds then None else Some(p.(contextRunning := true, synth := true))
  }

  /** A state together with the effects that led to it. */
  datatype Outcome = Outcome(player: Player, effects: seq<Effect>)

  /** `playScore`: stop an active session first; start the audio (a failure is
      caught and logged); parse; with no notes give up; otherwise set the tempo,
      build the timeline at that tempo, schedule the auto-stop, start the part and
      the transport, and become playing. */
  function AfterPlayScore(p: Player, elements: seq<NoteElement>, tempo: real, startSucceeds: bool, secondsOf: SecondsOf): (r: Outcome)
    ensures Consistent(p) ==> Consistent(r.player)
    ensures r.effects == (if p.playing || p.paused then StopEffects(p) else [])
    ensures r.player.highlight == p.highlight && r.player.removeHighlight == p.removeHighlight
    ensures Consistent(p) && (ParseNotes(elements) == [] || (!p.contextRunning && !startSucceeds)) ==>
              r.player.stopped && r.player.transport.scheduled == [] && r.player.transport.bpm == p.transport.bpm
    ensures ParseNotes(elements) != [] && (p.contextRunning || startSucceeds) ==>
              && r.player.playing && !r.player.paused && !r.player.stopped
              && r.player.transport.state == TransportStarted
              && r.player.transport.bpm == tempo
              && r.player.part == Some(Events(ParseNotes(elements), tempo, secondsOf))
    ensures Consistent(p) && ParseNotes(elements) != [] && (p.contextRunning || startSucceeds) ==>
              var notes := ParseNotes(elements);
              r.player.transport.scheduled ==
                [AutoStop(TotalSeconds(notes, tempo, secondsOf)), PartEvents(Events(notes, tempo, secondsOf))]
  {
    var active := p.playing || p.paused;
    var p1 := if active then AfterStop(p) else p;
    var effects := if active then StopEffects(p) else [];
    match AfterInitializeTone(p1, startSucceeds)
    case None => Outcome(p1, effects)
    case Some(p2) =>
      var notes := ParseNotes(elements);
      if notes == [] then Outcome(p2, effects)
      else Outcome(Started(p2, notes, tempo, secondsOf), effects)
  }

  /** The successful end of `playScore`: the timeline at the new tempo, the auto-stop
      at its total length, then the part, and the transport running. */
  function Started(p: Player, notes: seq<ParsedNote>, tempo: real, secondsOf: SecondsOf): Player {
    var events := Events(notes, tempo, secondsOf);
    var total := TotalSeconds(notes, tempo, secondsOf);
    p.(playing := true, paused := false, stopped := false, part := Some(events),
       transport := Transport(TransportStarted, tempo, p.transport.scheduled + [AutoStop(total), PartEvents(events)]))
  }

  /** The Tone.Part callback for one event at audio time `time`: the synthesiser plays
      the note; then, only when a highlight callback is registered, the remove-highlight
      callback (when set) runs before the note is highlighted. */
  function EventEffects(p: Player, event: TimedEvent, time: real): (r: seq<Effect>)
    ensures |r| == (if p.synth then 1 else 0) +
                   (if p.highlight.Some? then 1 + (if p.removeHighlight.Some? then 1 else 0) else 0)
    ensures p.synth ==> r[0] == Triggered(event.note.pitch, event.note.duration, Some(time))
    ensures p.highlight.Some? ==> r[|r| - 1] == Highlighted(p.highlight.value, event.note.id)
    ensures p.highlight.Some? && p.removeHighlight.Some? ==> r[|r| - 2] == HighlightRemoved(p.removeHighlight.value)
  {
    (if p.synth then [Triggered(event.note.pitch, event.note.duration, Some(time))] else []) +
    (if p.highlight.Some? then
       (if p.removeHighlight.Some? then [HighlightRemoved(p.removeHighlight.value)] else []) +
       [Highlighted(p.highlight.value, event.note.id)]
     else [])
  }

  /** `playNote`: start the audio, then play one note at once, outside any timeline.
      None when the audio context cannot start. */
  function AfterPlayNote(p: Player, pitch: string, duration: string, startSucceeds: bool): (r: Option<Outcome>)
    ensures Consistent(p) && r.Some? ==> Consistent(r.value.player)
    ensures r.None? <==> !p.contextRunning && !startSucceeds
    ensures r.Some? ==> r.value.effects == [Triggered(pitch, duration, None)]
    ensures r.Some? ==> r.value.player.(synth := p.synth, contextRunning := p.contextRunning) == p
  {
    match AfterInitializeTone(p, startSucceeds)
    case None => None
    case Some(p2) => Some(Outcome(p2, [Triggered(pitch, duration, None)]))
  }

  /** Stopping twice leaves the same state as stopping once. */
  lemma StopIdempotent(p: Player)
    ensures AfterStop(AfterStop(p)) == AfterStop(p)
  {
  }

  /** Pausing acts only on a playing controller and resuming only on a paused one;
      pausing then resuming a playing controller restores it. */
  lemma PauseResumeRoundTrip(p: Player)
    requires Consistent(p)
    ensures !p.playing ==> AfterPause(p) == p
    ensures !p.paused ==> AfterResume(p) == p
    ensures p.playing ==> AfterResume(AfterPause(p)) == p
  {
  }

  /** The commands a caller, or the transport's auto-stop, can issue. */
  datatype Command =
    | Play(elements: seq<NoteElement>, tempo: real, startSucceeds: bool)
    | Pause
    | Resume
    | Stop
    | SetTempo(newTempo: real)
    | SetCallbacks(highlight: Option<CallbackId>, removeHighlight: Option<CallbackId>)
    | PlayOne(pitch: string, duration: string, startSucceeds: bool)
    | AutoStopReached

  function Step(p: Player, c: Command, secondsOf: SecondsOf): Player {
    match c
    case Play(elements, tempo, ok) => AfterPlayScore(p, elements, tempo, ok, secondsOf).player
    case Pause => AfterPause(p)
    case Resume => AfterResume(p)
    case Stop => AfterStop(p)
    case SetTempo(t) => AfterUpdateTempo(p, t)
    case SetCallbacks(h, r) => AfterSetHighlightCallbacks(p, h, r)
    case PlayOne(pitch, duration, ok) =>
      (match AfterPlayNote(p, pitch, duration, ok) case None => p case Some(o) => o.player)
    case AutoStopReached => AfterStop(p)
  }

  /** The state after a sequence of commands. */
  function Run(p: Player, commands: seq<Command>, secondsOf: SecondsOf): Player
    decreases |commands|
  {
    if commands == [] then p
    else Step(Run(p, commands[..|commands| - 1], secondsOf), commands[|commands| - 1], secondsOf)
  }

  /** Every state reachable from a new controller is consistent; in particular
      exactly one of the three flags is true. */
  lemma {:induction false} ReachableStatesConsistent(bpm: real, commands: seq<Command>, secondsOf: SecondsOf)
    ensures Consistent(Run(Initial(bpm), commands, secondsOf))
    ensures var p := Run(Initial(bpm), commands, secondsOf);
            (p.playing ==> !p.paused && !p.stopped) &&
            (p.paused ==> !p.playing && !p.stopped) &&
            (p.stopped ==> !p.playing && !p.paused) &&
            (p.playing || p.paused || p.stopped)
    decreases |commands|
  {
    if commands != [] {
      ReachableStatesConsistent(bpm, commands[..|commands| - 1], secondsOf);
    }
  }

  /** The controller object. Its fields are the closure variables of the composable
      (the three flags, the two callbacks, the synthesiser and the part) plus the
      Tone.js transport and audio context it drives; `effects` records, in order,
      what it has made happen outside. */
  class AudioPlayer {
    var isPlayingAudio: bool
    var isPausedAudio: bool
    var isStoppedAudio: bool
    var highlightCallback: Option<CallbackId>
    var removeHighlightCallback: Option<CallbackId>
    var synth: bool
    var part: Option<seq<TimedEvent>>
    var transport: Transport
    var contextRunning: bool
    var effects: seq<Effect>

    function State(): Player
      reads this
    {
      Player(isPlayingAudio, isPausedAudio, isStoppedAudio, highlightCallback, removeHighlightCallback,
             synth, contextRunning, part, transport)
    }

    ghost predicate Valid()
      reads this
    {
      Consistent(State())
    }

    /** `useAudioPlayer()`, over a stopped transport at tempo `bpm`. */
    constructor (bpm: real)
      ensures Valid() && State() == Initial(bpm) && effects == []
    {
      isPlayingAudio, isPausedAudio, isStoppedAudio := false, false, true;
      highlightCallback, removeHighlightCallback := None, None;
      synth := false;
      part := None;
      transport := Transport(TransportStopped, bpm, []);
      contextRunning := false;
      effects := [];
    }

    method InitializeTone(startSucceeds: bool) returns (ok: bool)
      modifies this
      ensures ok <==> AfterInitializeTone(old(State()), startSucceeds).Some?
      ensures ok ==> State() == AfterInitializeTone(old(State()), startSucceeds).value
      ensures !ok ==> State() == old(State())
      ensures effects == old(effects)
    {
      if !contextRunning {
        if !startSucceeds {
          return false;  // the audio context cannot start
        }
        contextRunning := true;
      }
      if !synth {
        synth := true;
      }
      ok := true;
    }

    method StopScore()
      modifies this
      ensures Valid()
      ensures State() == AfterStop(old(State()))
      ensures effects == old(effects) + StopEffects(old(State()))
    {
      if part.Some? {
        part := None;  // drop the part
      }
      transport := transport.(state := TransportStopped);
      transport := transport.(scheduled := []);  // cancelling empties the schedule
      if removeHighlightCallback.Some? {
        effects := effects + [HighlightRemoved(removeHighlightCallback.value)];
      }
      isPlayingAudio := false;
      isPausedAudio := false;
      isStoppedAudio := true;
    }

    method PlayScore(elements: seq<NoteElement>, tempo: real, startSucceeds: bool, secondsOf: SecondsOf)
      requires Valid()
      modifies this
      ensures Valid()
      ensures State() == AfterPlayScore(old(State()), elements, tempo, startSucceeds, secondsOf).player
      ensures effects == old(effects) + AfterPlayScore(old(State()), elements, tempo, startSucceeds, secondsOf).effects
    {
      if isPausedAudio || isPlayingAudio {
        StopScore();
      }
      var ok := InitializeTone(startSucceeds);
      if !ok {
        return;  // the failure is swallowed
      }
      var parsedNotes := ParseMeiToNotes(elements);
      if |parsedNotes| == 0 {
        return;  // no notes: give up
      }
      StartPart(parsedNotes, tempo, secondsOf);
    }

    /** Tempo, timeline, auto-stop, part and transport start, in the order of
        `playScore`. */
    method StartPart(parsedNotes: seq<ParsedNote>, tempo: real, secondsOf: SecondsOf)
      modifies this
      ensures State() == Started(old(State()), parsedNotes, tempo, secondsOf)
      ensures effects == old(effects)
    {
      transport := transport.(bpm := tempo);
      var events, totalDuration := BuildTimeline(parsedNotes, transport.bpm, secondsOf);
      transport := transport.(scheduled := transport.scheduled + [AutoStop(totalDuration)]);
      part := Some(events);
      transport := transport.(scheduled := transport.scheduled + [PartEvents(events)]);  // the part's events join the transport
      transport := transport.(state := TransportStarted);
      isPlayingAudio := true;
      isPausedAudio := false;
      isStoppedAudio := false;
    }

    method PauseScore()
      requires Valid()
      modifies this
      ensures Valid()
      ensures State() == AfterPause(old(State()))
      ensures effects == old(effects)
    {
      if transport.state == TransportStarted {
        transport := transport.(state := TransportPaused);
        isPlayingAudio := false;
        isPausedAudio := true;
        isStoppedAudio := false;
      }
    }

    method ResumeScore()
      requires Valid()
      modifies this
      ensures Valid()
      ensures State() == AfterResume(old(State()))
      ensures effects == old(effects)
    {
      if transport.state == TransportPaused {
        transport := transport.(state := TransportStarted);
        isPlayingAudio := true;
        isPausedAudio := false;
        isStoppedAudio := false;
      }
    }

    method UpdateTempo(newTempo: real)
      requires Valid()
      modifies this
      ensures Valid()
      ensures State() == AfterUpdateTempo(old(State()), newTempo)
      ensures effects == old(effects)
    {
      transport := transport.(bpm := newTempo);
    }

    method SetHighlightCallbacks(highlight: Option<CallbackId>, removeHighlight: Option<CallbackId>)
      requires Valid()
      modifies this
      ensures Valid()
      ensures State() == AfterSetHighlightCallbacks(old(State()), highlight, removeHighlight)
      ensures effects == old(effects)
    {
      highlightCallback := highlight;
      removeHighlightCallback := removeHighlight;
    }

    /** `playNote(pitch, duration)`; `ok` is false when the audio context cannot
        start, the case in which the source's promise rejects. */
    method PlayNote(pitch: string, duration: string, startSucceeds: bool) returns (ok: bool)
      requires Valid()
      modifies this
      ensures Valid()
      ensures ok <==> AfterPlayNote(old(State()), pitch, duration, startSucceeds).Some?
      ensures ok ==> State() == AfterPlayNote(old(State()), pitch, duration, startSucceeds).value.player
      ensures ok ==> effects == old(effects) + AfterPlayNote(old(State()), pitch, duration, startSucceeds).value.effects
      ensures !ok ==> State() == old(State()) && effects == old(effects)
    {
      ok := InitializeTone(startSucceeds);
      if ok && synth {
        effects := effects + [Triggered(pitch, duration, None)];
      }
    }

    /** The transport fires one event of the current part at audio time `time`. */
    method FirePartEvent(event: TimedEvent, time: real)
      requires Valid()
      requires transport.state == TransportStarted && part.Some? && event in part.value
      modifies this
      ensures Valid()
      ensures State() == old(State())
      ensures effects == old(effects) + EventEffects(old(State()), event, time)
    {
      if synth {
        effects := effects + [Triggered(event.note.pitch, event.note.duration, Some(time))];
      }
      if highlightCallback.Some? {
        if removeHighlightCallback.Some? {
          effects := effects + [HighlightRemoved(removeHighlightCallback.value)];
        }
        effects := effects + [Highlighted(highlightCallback.value, event.note.id)];
      }
    }
  }
}
