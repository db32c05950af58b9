/** The score side of the audio player: the MEI duration code table and the note
    extractor that turns the `note` elements of an MEI document into playable notes. */
module MeiScore {
  import opened Optional
  import opened Text

  /** A `note` element as the extractor sees it: the MEI attributes `pname` (pitch
      class), `oct` (octave), `dur` (logical duration) and `xml:id`, each possibly
      absent. The elements reach the extractor in document order. */
  datatype NoteElement = NoteElement(
    pname: Option<string>,
    oct: Option<string>,
    dur: Option<string>,
    xmlId: Option<string>)

  /** A note ready for the synthesiser: pitch such as "C4", a Tone.js duration such
      as "4n", and the identifier of the notehead to highlight. */
  datatype ParsedNote = ParsedNote(pitch: string, duration: string, id: string)

  /** The MEI duration codes the table knows. */
  const MeiDurationCodes: set<string> := {"1", "2", "4", "8", "16", "32"}

  /** The Tone.js durations the table produces. */
  const ToneDurations: set<string> := {"1n", "2n", "4n", "8n", "16n", "32n"}

  const DurationMap: map<string, string> := map[
    "1" := "1n",
    "2" := "2n",
    "4" := "4n",
    "8" := "8n",
    "16" := "16n",
    "32" := "32n"
  ]

  /** `convertMeiDurationToTone`: a known code gets its 'n' form, anything else is
      played as a quarter note. */
  function ConvertMeiDurationToTone(meiDuration: string): (r: string)
    ensures meiDuration in MeiDurationCodes ==> r == meiDuration + "n"
    ensures meiDuration !in MeiDurationCodes ==> r == "4n"
    ensures r in ToneDurations
  {
    assert "1" + "n" == "1n" && "2" + "n" == "2n" && "4" + "n" == "4n";
    assert "8" + "n" == "8n" && "16" + "n" == "16n" && "32" + "n" == "32n";
    if meiDuration in DurationMap then DurationMap[meiDuration] else "4n"
  }

  /** JavaScript truthiness of an attribute value: present and not the empty string. */
  predicate Truthy(a: Option<string>) {
    a.Some? && a.value != ""
  }

  /** An attribute value with a fallback for when it is absent or empty. */
  function OrElse(a: Option<string>, fallback: string): (r: string)
    ensures Truthy(a) ==> r == a.value
    ensures !Truthy(a) ==> r == fallback
  {
    if Truthy(a) then a.value else fallback
  }

  /** An element is kept exactly when both its pitch class and octave are truthy. */
  predicate Playable(e: NoteElement) {
    Truthy(e.pname) && Truthy(e.oct)
  }

  /** The note produced for the kept element at position `index` of the element list. */
  function NoteOf(e: NoteElement, index: nat): ParsedNote
    requires Playable(e)
  {
    ParsedNote(
      Upper(e.pname.value) + e.oct.value,
      ConvertMeiDurationToTone(OrElse(e.dur, "4")),
      OrElse(e.xmlId, "note-" + NatText(index)))
  }

  /** What the extractor returns for a list of elements: one note per kept element,
      appended in order. */
  function ParseNotes(elements: seq<NoteElement>): seq<ParsedNote>
    decreases |elements|
  {
    if elements == [] then []
    else
      var n := |elements| - 1;
      ParseNotes(elements[..n]) + (if Playable(elements[n]) then [NoteOf(elements[n], n)] else [])
  }

  /** The positions of the kept elements, in increasing order. */
  function Kept(elements: seq<NoteElement>): (ks: seq<nat>)
    ensures forall k :: 0 <= k < |ks| ==> ks[k] < |elements| && Playable(elements[ks[k]])
    ensures forall k1, k2 :: 0 <= k1 < k2 < |ks| ==> ks[k1] < ks[k2]
    ensures forall i :: 0 <= i < |elements| && Playable(elements[i]) ==> i in ks
    ensures |ks| <= |elements|
    decreases |elements|
  {
    if elements == [] then []
    else
      var n := |elements| - 1;
      var front := Kept(elements[..n]);
      assert forall k :: 0 <= k < |front| ==> elements[..n][front[k]] == elements[front[k]];
      assert forall i :: 0 <= i < n ==> elements[..n][i] == elements[i];
      front + (if Playable(elements[n]) then [n] else [])
  }

  /** `parseMeiToNotes`: walks the elements with their positions and pushes one note
      for every kept element. */
  method ParseMeiToNotes(noteElements: seq<NoteElement>) returns (parsedNotes: seq<ParsedNote>)
    ensures parsedNotes == ParseNotes(noteElements)
  {
    parsedNotes := [];
    var index := 0;
    while index < |noteElements|
      invariant 0 <= index <= |noteElements|
      invariant parsedNotes == ParseNotes(noteElements[..index])
    {
      var noteEl := noteElements[index];
      var pitch := noteEl.pname;
      var octave := noteEl.oct;
      var duration := OrElse(noteEl.dur, "4");
      var id := noteEl.xmlId;
      if Truthy(pitch) && Truthy(octave) {
        var tonePitch := Upper(pitch.value) + octave.value;
        var toneDuration := ConvertMeiDurationToTone(duration);
        parsedNotes := parsedNotes + [ParsedNote(tonePitch, toneDuration, OrElse(id, "note-" + NatText(index)))];
      }
      assert noteElements[..index + 1][..index] == noteElements[..index];
      index := index + 1;
    }
    assert noteElements[..index] == noteElements;
  }

  /** The extractor emits exactly the kept elements, in document order, each turned
      into its note; so it never emits more notes than there are elements. */
  lemma {:induction false} ParseNotesSelectsKept(elements: seq<NoteElement>)
    ensures |ParseNotes(elements)| == |Kept(elements)| <= |elements|
    ensures forall k :: 0 <= k < |Kept(elements)| ==>
              ParseNotes(elements)[k] == NoteOf(elements[Kept(elements)[k]], Kept(elements)[k])
    decreases |elements|
  {
    if elements != [] {
      var n := |elements| - 1;
      ParseNotesSelectsKept(elements[..n]);
      var front := Kept(elements[..n]);
      forall k | 0 <= k < |front|
        ensures elements[..n][front[k]] == elements[front[k]]
      {
      }
    }
  }

  /** Field by field, the note emitted for the kept element at position i: the
      upper-cased pitch class followed by the octave; a Tone.js duration, the quarter
      note when `dur` is absent or empty; the `xml:id` when non-empty, else "note-i"
      where i counts every element, skipped ones included. */
  lemma EmittedNoteFields(elements: seq<NoteElement>, k: nat)
    requires k < |Kept(elements)|
    ensures |ParseNotes(elements)| == |Kept(elements)|
    ensures var i := Kept(elements)[k];
            var e := elements[i];
            var note := ParseNotes(elements)[k];
            && note.pitch == Upper(e.pname.value) + e.oct.value
            && note.duration in ToneDurations
            && (!Truthy(e.dur) ==> note.duration == "4n")
            && (Truthy(e.xmlId) ==> note.id == e.xmlId.value)
            && (!Truthy(e.xmlId) ==> note.id == "note-" + NatText(i))
  {
    ParseNotesSelectsKept(elements);
  }

  /** Two emitted notes that both got a synthesized identifier have different ones. */
  lemma SynthesizedIdsDistinct(elements: seq<NoteElement>, k1: nat, k2: nat)
    requires k1 < k2 < |Kept(elements)|
    requires !Truthy(elements[Kept(elements)[k1]].xmlId) && !Truthy(elements[Kept(elements)[k2]].xmlId)
    ensures |ParseNotes(elements)| == |Kept(elements)|
    ensures ParseNotes(elements)[k1].id != ParseNotes(elements)[k2].id
  {
    ParseNotesSelectsKept(elements);
    var i1, i2 := Kept(elements)[k1], Kept(elements)[k2];
    EmittedNoteFields(elements, k1);
    EmittedNoteFields(elements, k2);
    var s1, s2 := "note-" + NatText(i1), "note-" + NatText(i2);
    if s1 == s2 {
      assert NatText(i1) == s1[5..] && NatText(i2) == s2[5..];
      NatTextInjective(i1, i2);
    }
  }
}
