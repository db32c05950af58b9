/** The static tables of the front-end: note durations (as fractions of a whole
    note) and the computer-keyboard to piano-key mappings. Every duration is a
    dyadic rational, so the exact `real` values agree with the JavaScript numbers. */
module Constants {

  /** All the possible durations for a note, keyed by the stave's duration code. */
  const DurationNote: map<string, real> := map[
    "32" := 1.0 / 32.0,
    "16" := 1.0 / 16.0,
    "8" := 1.0 / 8.0,
    "q" := 1.0 / 4.0,
    "h" := 1.0 / 2.0,
    "w" := 1.0
  ]

  /** The same codes plus the dotted ones (suffix 'd'); there is no dotted whole. */
  const DurationNoteWithDots: map<string, real> := map[
    "32" := 1.0 / 32.0,
    "32d" := 1.0 / 32.0 + 1.0 / 64.0,
    "16" := 1.0 / 16.0,
    "16d" := 1.0 / 16.0 + 1.0 / 32.0,
    "8" := 1.0 / 8.0,
    "8d" := 1.0 / 8.0 + 1.0 / 16.0,
    "q" := 1.0 / 4.0,
    "qd" := 1.0 / 4.0 + 1.0 / 8.0,
    "h" := 1.0 / 2.0,
    "hd" := 0.5 + 0.25,
    "w" := 1.0
  ]

  /** The undotted codes from shortest to longest. */
  const DurationCodes: seq<string> := ["32", "16", "8", "q", "h", "w"]

  datatype PianoKey = PianoKey(pitch: string, octave: int)

  /** AZERTY computer key to piano key; the octave is relative to a global octave. */
  const MappingAzerty: map<string, PianoKey> := map[
    "q" := PianoKey("C", 0),
    "z" := PianoKey("C#", 0),
    "s" := PianoKey("D", 0),
    "e" := PianoKey("D#", 0),
    "d" := PianoKey("E", 0),
    "f" := PianoKey("F", 0),
    "t" := PianoKey("F#", 0),
    "g" := PianoKey("G", 0),
    "y" := PianoKey("G#", 0),
    "h" := PianoKey("A", 0),
    "u" := PianoKey("A#", 0),
    "j" := PianoKey("B", 0),
    "k" := PianoKey("C", 1),
    "o" := PianoKey("C#", 1),
    "l" := PianoKey("D", 1),
    "p" := PianoKey("D#", 1),
    "m" := PianoKey("E", 1),
    "\U{F9}" := PianoKey("F", 1),
    ")" := PianoKey("F#", 1),
    "*" := PianoKey("G", 1),
    "$" := PianoKey("G#", 1),
    "b" := PianoKey("r", 0)
  ]

  /** US-QWERTY key to the AZERTY key at the same place. */
  const QwertyUsToAzerty: map<string, string> := map[
    "q" := "a",
    "w" := "z",
    "a" := "q",
    "z" := "w",
    ";" := "m",
    "'" := "\U{F9}",
    "\\" := "*",
    "m" := ",",
    "[" := "^",
    "]" := "$"
  ]

  const ChromaticNames: set<string> :=
    {"C", "C#", "D", "D#", "E", "F", "F#", "G", "G#", "A", "A#", "B"}

  /** One over the length of a duration code: always a whole number. */
  function Reciprocal(code: string): (n: nat)
    requires code in DurationNote
    ensures n as real * DurationNote[code] == 1.0
    ensures n in {1, 2, 4, 8, 16, 32}
  {
    assert code in {"32", "16", "8", "q", "h", "w"};
    (1.0 / DurationNote[code]).Floor
  }

  /** The duration table is exactly the six codes, each value twice the previous one. */
  lemma DurationsDouble()
    ensures DurationNote.Keys == set c | c in DurationCodes
    ensures DurationNote[DurationCodes[0]] == 1.0 / 32.0
    ensures forall i :: 0 <= i < |DurationCodes| - 1 ==>
              DurationNote[DurationCodes[i + 1]] == 2.0 * DurationNote[DurationCodes[i]]
  {
  }

  /** The dotted table agrees with the plain one on the six undotted codes. */
  lemma DottedTableExtendsPlain()
    ensures DurationNote.Keys <= DurationNoteWithDots.Keys
    ensures forall c :: c in DurationNote ==> DurationNoteWithDots[c] == DurationNote[c]
  {
  }

  /** A dotted code lasts 3/2 of its undotted code; only the whole note has no dotted form. */
  lemma DottedIsThreeHalves()
    ensures forall c :: c in DurationNote && c != "w" ==>
              c + "d" in DurationNoteWithDots && DurationNoteWithDots[c + "d"] == 1.5 * DurationNote[c]
    ensures "wd" !in DurationNoteWithDots
    ensures DurationNoteWithDots.Keys == DurationNote.Keys + DottedCodes()
  {
    DottedCodesListed();
    forall c | c in DurationNote && c != "w"
      ensures c + "d" in DurationNoteWithDots && DurationNoteWithDots[c + "d"] == 1.5 * DurationNote[c]
    {
      assert c == "32" || c == "16" || c == "8" || c == "q" || c == "h";
      if c == "32" {
        assert c + "d" == "32d";
      } else if c == "16" {
        assert c + "d" == "16d";
      } else if c == "8" {
        assert c + "d" == "8d";
      } else if c == "q" {
        assert c + "d" == "qd";
      } else {
        assert c + "d" == "hd";
      }
    }
  }

  /** The dotted spelling of every code but the whole note. */
  ghost function DottedCodes(): set<string> {
    set c | c in DurationNote && c != "w" :: c + "d"
  }

  lemma DottedCodesListed()
    ensures DottedCodes() == {"32d", "16d", "8d", "qd", "hd"}
  {
    assert "32" + "d" == "32d" && "16" + "d" == "16d" && "8" + "d" == "8d";
    assert "q" + "d" == "qd" && "h" + "d" == "hd";
  }

  /** Every mapped key is a chromatic pitch or the rest 'r', in octave 0 or 1, and
      only 'b' is the rest. */
  lemma AzertyMappingWellFormed()
    ensures forall k :: k in MappingAzerty ==>
              MappingAzerty[k].octave in {0, 1} &&
              (MappingAzerty[k].pitch in ChromaticNames || MappingAzerty[k].pitch == "r")
    ensures forall k :: k in MappingAzerty ==> (MappingAzerty[k].pitch == "r" <==> k == "b")
  {
  }

  /** No two QWERTY keys convert to the same AZERTY key; q/a and w/z are swapped. */
  lemma QwertyConversionInjective()
    ensures forall k1, k2 :: k1 in QwertyUsToAzerty && k2 in QwertyUsToAzerty && k1 != k2 ==>
              QwertyUsToAzerty[k1] != QwertyUsToAzerty[k2]
    ensures QwertyUsToAzerty["q"] == "a" && QwertyUsToAzerty["a"] == "q"
    ensures QwertyUsToAzerty["w"] == "z" && QwertyUsToAzerty["z"] == "w"
  {
  }
}
