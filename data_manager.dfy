/** Search-side helpers: result pagination, the serialiser that turns the melody
    entered on the stave into the Python-style list the search backend reads, the
    title extractor for MEI documents, and the variant of the colour ramp that does
    not clamp the degree. */
module DataManager {
  import opened Optional
  import opened Text
  import opened Constants
  import opened LazyMatch
  import ColorService

  function Min(a: int, b: int): int {
    if a <= b then a else b
  }

  /** How `slice` reads an index: negative counts from the end, then clamped to [0, len]. */
  function SliceIndex(len: nat, k: int): (r: nat)
    ensures r <= len
    ensures 0 <= k ==> r == Min(k, len)
    ensures k < 0 ==> r == (if len + k < 0 then 0 else len + k)
  {
    if k < 0 then (if len + k < 0 then 0 else len + k) else Min(k, len)
  }

  /** `Array.prototype.slice` and `String.prototype.slice` for integral arguments. */
  function JsSlice<T>(s: seq<T>, start: int, end: int): (r: seq<T>)
    ensures |r| <= |s|
  {
    var from := SliceIndex(|s|, start);
    var to := SliceIndex(|s|, end);
    if from < to then s[from..to] else []
  }

  /** A slice is always a contiguous run of the sequence. */
  lemma SliceIsWindow<T>(s: seq<T>, start: int, end: int)
    ensures exists lo, hi :: 0 <= lo <= hi <= |s| && JsSlice(s, start, end) == s[lo..hi]
  {
    var from, to := SliceIndex(|s|, start), SliceIndex(|s|, end);
    if from < to {
      assert JsSlice(s, start, end) == s[from..to];
    } else {
      assert JsSlice(s, start, end) == s[0..0];
    }
  }

  /** Slicing from 0 to -2: all but the last two elements, nothing when there are fewer. */
  lemma DropLastTwo<T>(s: seq<T>)
    ensures JsSlice(s, 0, -2) == if |s| < 2 then [] else s[..|s| - 2]
  {
  }

  /** Slicing from 1 to -1: all but the first and the last element. */
  lemma DropEnds<T>(s: seq<T>)
    requires |s| >= 2
    ensures JsSlice(s, 1, -1) == s[1..|s| - 1]
  {
  }

  // ---------------------------------------------------------------- pagination

  /** `getPageN(data, pageNb, numberPerPage)`: for a page number of at least 1 and a
      non-negative size, at most that many items. */
  function GetPageN<T>(data: seq<T>, pageNb: int, numberPerPage: int): (page: seq<T>)
    ensures pageNb >= 1 && numberPerPage >= 0 ==> |page| <= numberPerPage
  {
    // Both branches compute the same slice; the split only lets the first one call
    // the lemmas that bound the page's length.
    if pageNb >= 1 && numberPerPage >= 0 then
      PageBounds(pageNb, numberPerPage);
      NonNegativeSlice(data, (pageNb - 1) * numberPerPage, pageNb * numberPerPage);
      JsSlice(data, (pageNb - 1) * numberPerPage, pageNb * numberPerPage)
    else
      JsSlice(data, (pageNb - 1) * numberPerPage, pageNb * numberPerPage)
  }

  /** Whatever the arguments, even negative or zero ones, a page is a contiguous run
      of the data. */
  lemma PageIsContiguous<T>(data: seq<T>, pageNb: int, numberPerPage: int)
    ensures exists lo, hi :: 0 <= lo <= hi <= |data| && GetPageN(data, pageNb, numberPerPage) == data[lo..hi]
  {
    SliceIsWindow(data, (pageNb - 1) * numberPerPage, pageNb * numberPerPage);
  }

  /** Page p of size n is the slice [(p-1)n, pn) of the data, cut at its end; it
      holds at most n items. */
  lemma PageIsWindow<T>(data: seq<T>, pageNb: int, numberPerPage: int)
    requires pageNb >= 1 && numberPerPage >= 0
    ensures var lo, hi := Min((pageNb - 1) * numberPerPage, |data|), Min(pageNb * numberPerPage, |data|);
            lo <= hi && GetPageN(data, pageNb, numberPerPage) == data[lo..hi]
    ensures |GetPageN(data, pageNb, numberPerPage)| <= numberPerPage
  {
    PageBounds(pageNb, numberPerPage);
    NonNegativeSlice(data, (pageNb - 1) * numberPerPage, pageNb * numberPerPage);
  }

  lemma PageBounds(pageNb: int, numberPerPage: int)
    requires pageNb >= 1 && numberPerPage >= 0
    ensures 0 <= (pageNb - 1) * numberPerPage
    ensures pageNb * numberPerPage == (pageNb - 1) * numberPerPage + numberPerPage
  {
  }

  /** With non-negative, ordered bounds `slice` is the window cut at the end. */
  lemma NonNegativeSlice<T>(s: seq<T>, start: int, end: int)
    requires 0 <= start <= end
    ensures Min(start, |s|) <= Min(end, |s|)
    ensures JsSlice(s, start, end) == s[Min(start, |s|)..Min(end, |s|)]
  {
  }

  lemma AdjacentSlices<T>(s: seq<T>, lo: nat, hi: nat)
    requires lo <= hi <= |s|
    ensures s[..lo] + s[lo..hi] == s[..hi]
  {
  }

  /** Pages 1..k one after the other. */
  function FirstPages<T>(data: seq<T>, k: nat, numberPerPage: int): seq<T> {
    if k == 0 then [] else FirstPages(data, k - 1, numberPerPage) + GetPageN(data, k, numberPerPage)
  }

  /** Consecutive pages are adjacent and do not overlap: the first k pages together
      are the first min(kn, |data|) items. */
  lemma {:induction false} FirstPagesArePrefix<T>(data: seq<T>, k: nat, numberPerPage: nat)
    ensures FirstPages(data, k, numberPerPage) == data[..Min(k * numberPerPage, |data|)]
  {
    if k > 0 {
      FirstPagesArePrefix(data, k - 1, numberPerPage);
      PageIsWindow(data, k, numberPerPage);
      var lo, hi := Min((k - 1) * numberPerPage, |data|), Min(k * numberPerPage, |data|);
      var prev, page := FirstPages(data, k - 1, numberPerPage), GetPageN(data, k, numberPerPage);
      assert FirstPages(data, k, numberPerPage) == prev + page;
      assert prev == data[..lo] && page == data[lo..hi];
      AdjacentSlices(data, lo, hi);
    }
  }

  // ---------------------------------------------------------------- serialiser

  /** A note of the stave melody: its keys (such as "c/4"), its note type ('r' for
      a rest), its duration code (a key of the duration table) and its dots. */
  datatype StaveNote = StaveNote(keys: seq<string>, noteType: string, duration: string, dots: Option<nat>)

  /** One key of the pitch list: ignoring the pitch wins over the rest check. */
  function KeyText(key: string, noteType: string, ignorePitch: bool): string {
    if ignorePitch then "None"
    else if noteType == "r" then "'r'"
    else "'" + key + "'"
  }

  function KeyTexts(note: StaveNote, ignorePitch: bool): seq<string> {
    seq(|note.keys|, i requires 0 <= i < |note.keys| => KeyText(note.keys[i], note.noteType, ignorePitch))
  }

  /** The decimal text of one over the code's length: a whole number for a known code,
      NaN otherwise. */
  function ReciprocalText(code: string): string {
    if code in DurationNote then NatText(Reciprocal(code)) else "NaN"
  }

  /** The duration part of a tuple: "None, 0" when the rhythm is ignored, otherwise
      the reciprocal duration and the number of dots (0 when absent). */
  function DurationText(note: StaveNote, ignoreRhythm: bool): string {
    if ignoreRhythm then "None, 0"
    else ReciprocalText(note.duration) + ", " + NatText(note.dots.GetOr(0))
  }

  /** The tuple for one note, "([pitches], duration, dots)". When the note has no
      keys at all, the trimming of the trailing ", " removes the "([" instead. */
  function Tuple(note: StaveNote, ignorePitch: bool, ignoreRhythm: bool): string {
    (if |note.keys| == 0 then "" else "([" + Join(KeyTexts(note, ignorePitch), ", ")) +
    "], " + DurationText(note, ignoreRhythm) + ")"
  }

  function Tuples(melody: seq<StaveNote>, ignorePitch: bool, ignoreRhythm: bool): seq<string> {
    seq(|melody|, k requires 0 <= k < |melody| => Tuple(melody[k], ignorePitch, ignoreRhythm))
  }

  /** The query parameter: the tuples in melody order, joined by ", " inside "[" and
      "]"; because the final trim is unconditional the empty melody gives "]". */
  function NotesQueryParam(melody: seq<StaveNote>, ignorePitch: bool, ignoreRhythm: bool): string {
    if |melody| == 0 then "]"
    else "[" + Join(Tuples(melody, ignorePitch, ignoreRhythm), ", ") + "]"
  }

  /** `createNotesQueryParam`: appends to a string, trimming the last two characters
      after each pitch list and once at the end. */
  method CreateNotesQueryParam(melody: seq<StaveNote>, ignorePitch: bool, ignoreRhythm: bool) returns (notes: string)
    ensures notes == NotesQueryParam(melody, ignorePitch, ignoreRhythm)
  {
    notes := "[";
    var k := 0;
    assert Tuples(melody[..0], ignorePitch, ignoreRhythm) == [];
    while k < |melody|
      invariant 0 <= k <= |melody|
      invariant notes == "[" + Terminated(Tuples(melody[..k], ignorePitch, ignoreRhythm), ", ")
    {
      ghost var done := Terminated(Tuples(melody[..k], ignorePitch, ignoreRhythm), ", ");
      ghost var tuple := Tuple(melody[k], ignorePitch, ignoreRhythm);
      notes := AppendTuple(notes, melody[k], ignorePitch, ignoreRhythm);
      Assoc("[", done, tuple + ", ");
      Assoc(done, tuple, ", ");
      TupleStep(melody, k, ignorePitch, ignoreRhythm);
      k := k + 1;
    }
    assert melody[..k] == melody;
    TrimFinal(Tuples(melody, ignorePitch, ignoreRhythm));
    notes := JsSlice(notes, 0, -2) + "]";
  }

  /** One pass of the outer loop of `createNotesQueryParam`: the pitch list with its
      trailing ", " trimmed, then the duration and dot count; together the note's
      tuple followed by ", ". */
  method AppendTuple(before: string, note: StaveNote, ignorePitch: bool, ignoreRhythm: bool) returns (notes: string)
    ensures notes == before + (Tuple(note, ignorePitch, ignoreRhythm) + ", ")
  {
    ghost var keyTexts := KeyTexts(note, ignorePitch);
    notes := before + "([";
    var noteIdx := 0;
    while noteIdx < |note.keys|
      invariant 0 <= noteIdx <= |note.keys|
      invariant notes == before + "([" + Terminated(keyTexts[..noteIdx], ", ")
    {
      var key := note.keys[noteIdx];
      ghost var prev := notes;
      if ignorePitch {
        notes := notes + "None, ";
      } else if note.noteType == "r" {
        notes := notes + "'r', ";
      } else {
        notes := notes + ("'" + key + "', ");
      }
      KeyItem(key, note.noteType, ignorePitch);
      assert notes == prev + (keyTexts[noteIdx] + ", ");
      TerminatedSnoc(keyTexts, noteIdx, ", ");
      Assoc(before + "([", Terminated(keyTexts[..noteIdx], ", "), keyTexts[noteIdx] + ", ");
      noteIdx := noteIdx + 1;
    }
    assert keyTexts[..noteIdx] == keyTexts;
    TrimPitchList(before, keyTexts);
    ghost var open := if |keyTexts| == 0 then "" else "([" + Join(keyTexts, ", ");
    notes := JsSlice(notes, 0, -2) + "], ";
    assert notes == before + open + "], ";
    ghost var mid := notes;
    if ignoreRhythm {
      notes := notes + "None, 0), ";
    } else {
      var dur := ReciprocalText(note.duration);
      var dots := note.dots.GetOr(0);
      notes := notes + (dur + ", " + NatText(dots) + "), ");
    }
    DurationItem(note, ignoreRhythm);
    ghost var tail := DurationText(note, ignoreRhythm) + "), ";
    assert notes == mid + tail;
    TupleItem(note, ignorePitch, ignoreRhythm);
    Assoc(before, open, "], ");
    Assoc(before, open + "], ", tail);
  }

  lemma Assoc(a: string, b: string, c: string)
    ensures a + b + c == a + (b + c)
  {
  }

  /** What the inner loop appends for one key is that key's text and ", ". */
  lemma KeyItem(key: string, noteType: string, ignorePitch: bool)
    ensures ignorePitch ==> "None, " == KeyText(key, noteType, ignorePitch) + ", "
    ensures !ignorePitch && noteType == "r" ==> "'r', " == KeyText(key, noteType, ignorePitch) + ", "
    ensures !ignorePitch && noteType != "r" ==> "'" + key + "', " == KeyText(key, noteType, ignorePitch) + ", "
  {
    assert "'" + key + "', " == "'" + key + "'" + ", ";
  }

  /** What the loop appends after the pitch list is the duration text, ")" and ", ". */
  lemma DurationItem(note: StaveNote, ignoreRhythm: bool)
    ensures ignoreRhythm ==> "None, 0), " == DurationText(note, ignoreRhythm) + "), "
    ensures !ignoreRhythm ==>
              ReciprocalText(note.duration) + ", " + NatText(note.dots.GetOr(0)) + "), " ==
              DurationText(note, ignoreRhythm) + "), "
  {
  }

  lemma TupleItem(note: StaveNote, ignorePitch: bool, ignoreRhythm: bool)
    ensures (if |note.keys| == 0 then "" else "([" + Join(KeyTexts(note, ignorePitch), ", ")) + "], " +
            (DurationText(note, ignoreRhythm) + "), ") ==
            Tuple(note, ignorePitch, ignoreRhythm) + ", "
  {
    assert "), " == ")" + ", ";
  }

  lemma TupleStep(melody: seq<StaveNote>, k: nat, ignorePitch: bool, ignoreRhythm: bool)
    requires k < |melody|
    ensures Terminated(Tuples(melody[..k + 1], ignorePitch, ignoreRhythm), ", ") ==
            Terminated(Tuples(melody[..k], ignorePitch, ignoreRhythm), ", ") + Tuple(melody[k], ignorePitch, ignoreRhythm) + ", "
  {
    var ts := Tuples(melody[..k + 1], ignorePitch, ignoreRhythm);
    assert ts[..k] == Tuples(melody[..k], ignorePitch, ignoreRhythm);
    assert ts[k] == Tuple(melody[k], ignorePitch, ignoreRhythm);
  }

  /** Dropping the last two characters of "..([" followed by terminated keys leaves
      "([" and the joined keys, or nothing of the "([" when there are no keys. */
  lemma TrimPitchList(before: string, keys: seq<string>)
    ensures JsSlice(before + "([" + Terminated(keys, ", "), 0, -2) ==
            before + (if |keys| == 0 then "" else "([" + Join(keys, ", "))
  {
    DropLastTwo(before + "([" + Terminated(keys, ", "));
    if |keys| > 0 {
      TerminatedIsJoinPlusSep(keys, ", ");
      var s := before + "([" + Join(keys, ", ");
      assert before + "([" + Terminated(keys, ", ") == s + ", ";
      assert (s + ", ")[..|s|] == s;
    } else {
      assert (before + "([")[..|before|] == before;
    }
  }

  /** The final trim: "[" and the terminated tuples lose their last ", "; "[" alone
      is shorter than two characters and becomes empty. */
  lemma TrimFinal(tuples: seq<string>)
    ensures JsSlice("[" + Terminated(tuples, ", "), 0, -2) ==
            (if |tuples| == 0 then "" else "[" + Join(tuples, ", "))
  {
    DropLastTwo("[" + Terminated(tuples, ", "));
    if |tuples| > 0 {
      TerminatedIsJoinPlusSep(tuples, ", ");
      var s := "[" + Join(tuples, ", ");
      assert "[" + Terminated(tuples, ", ") == s + ", ";
      assert (s + ", ")[..|s|] == s;
    }
  }

  /** The empty melody yields the lone "]"; one note gives its bracketed tuple. */
  lemma QueryParamSmall(note: StaveNote, ignorePitch: bool, ignoreRhythm: bool)
    ensures NotesQueryParam([], ignorePitch, ignoreRhythm) == "]"
    ensures NotesQueryParam([note], ignorePitch, ignoreRhythm) == "[" + Tuple(note, ignorePitch, ignoreRhythm) + "]"
  {
  }

  /** One tuple per note, in order: appending a note to a non-empty melody inserts
      ", " and the note's tuple before the closing bracket. */
  lemma QueryParamAppend(melody: seq<StaveNote>, note: StaveNote, ignorePitch: bool, ignoreRhythm: bool)
    requires |melody| > 0
    ensures var prev := NotesQueryParam(melody, ignorePitch, ignoreRhythm);
            |prev| > 0 &&
            NotesQueryParam(melody + [note], ignorePitch, ignoreRhythm) ==
            prev[..|prev| - 1] + ", " + Tuple(note, ignorePitch, ignoreRhythm) + "]"
  {
    var front := Tuples(melody, ignorePitch, ignoreRhythm);
    assert Tuples(melody + [note], ignorePitch, ignoreRhythm) == front + [Tuple(note, ignorePitch, ignoreRhythm)];
    BracketedAppend(front, Tuple(note, ignorePitch, ignoreRhythm));
  }

  lemma BracketedAppend(front: seq<string>, last: string)
    requires |front| > 0
    ensures var prev := "[" + Join(front, ", ") + "]";
            "[" + Join(front + [last], ", ") + "]" == prev[..|prev| - 1] + ", " + last + "]"
  {
    assert (front + [last])[..|front|] == front;
    var body := "[" + Join(front, ", ");
    assert (body + "]")[..|body|] == body;
  }

  /** Every key contributes "None" when the pitch is ignored, else "'r'" for a rest,
      else the quoted key; the duration part is "None, 0" when the rhythm is ignored,
      else one of the reciprocals 1, 2, 4, 8, 16, 32 (NaN for an unknown code) and the
      dot count. */
  lemma TupleParts(note: StaveNote, ignorePitch: bool, ignoreRhythm: bool)
    ensures forall i :: 0 <= i < |note.keys| ==>
              KeyTexts(note, ignorePitch)[i] ==
              (if ignorePitch then "None" else if note.noteType == "r" then "'r'" else "'" + note.keys[i] + "'")
    ensures ignoreRhythm ==> DurationText(note, ignoreRhythm) == "None, 0"
    ensures !ignoreRhythm ==>
              DurationText(note, ignoreRhythm) == ReciprocalText(note.duration) + ", " + NatText(note.dots.GetOr(0))
    ensures note.duration in DurationNote ==> ReciprocalText(note.duration) in {"1", "2", "4", "8", "16", "32"}
    ensures note.duration !in DurationNote ==> ReciprocalText(note.duration) == "NaN"
  {
    if note.duration in DurationNote {
      assert NatText(16) == "16" && NatText(32) == "32";
    }
  }

  // ---------------------------------------------------------------- title

  /** The innermost step of the title extractor: the shortest stretch from the first
      '>' to the next '<', without those two characters; absent when there is none. */
  function TagText(x: string): (r: Option<string>)
    ensures r.Some? ==> '<' !in r.value
    ensures r.Some? ==> exists i :: 0 <= i && i + |r.value| + 2 <= |x| && x[i] == '>' &&
                          (forall k :: 0 <= k < i ==> x[k] != '>') &&
                          x[i + 1..i + 1 + |r.value|] == r.value && x[i + 1 + |r.value|] == '<'
    ensures r.None? ==> forall i, j :: 0 <= i < j < |x| && x[i] == '>' ==> x[j] != '<'
  {
    match FirstMatch(x, ">", "<")
    case None =>
      NoTagText(x);
      None
    case Some((i, e)) =>
      var m := x[i..e];
      DropEnds(m);
      FoundTagText(x, i, e);
      var t := JsSlice(m, 1, -1);
      assert t == x[i + 1..e - 1];
      assert i + 1 + |t| == e - 1;
      Some(t)
  }

  /** Without a match no '>' is followed, anywhere later, by a '<'. */
  lemma NoTagText(x: string)
    requires FirstMatch(x, ">", "<").None?
    ensures forall i, j :: 0 <= i < j < |x| && x[i] == '>' ==> x[j] != '<'
  {
    forall i, j | 0 <= i < j < |x| && x[i] == '>' && x[j] == '<'
      ensures IsMatch(x, ">", "<", i, j + 1)
    {
      assert x[i..i + 1] == [x[i]] && x[j..j + 1] == [x[j]];
    }
  }

  /** The match runs from the first '>' to the first '<' after it. */
  lemma FoundTagText(x: string, i: nat, e: nat)
    requires FirstMatch(x, ">", "<") == Some((i, e))
    ensures i + 2 <= e <= |x| && x[i] == '>' && x[e - 1] == '<'
    ensures forall k :: 0 <= k < i ==> x[k] != '>'
    ensures forall k :: i + 1 <= k < e - 1 ==> x[k] != '<'
  {
    assert x[i..i + 1] == [x[i]];
    assert x[e - 1..e] == [x[e - 1]];
    forall k | 0 <= k < i ensures x[k] != '>' {
      assert x[k] == '>' ==> OccursAt(x, ">", k) by { assert x[k..k + 1] == [x[k]]; }
    }
    forall k | i + 1 <= k < e - 1 ensures x[k] != '<' {
      assert x[k] == '<' ==> IsMatch(x, ">", "<", i, k + 1) by { assert x[k..k + 1] == [x[k]]; }
    }
  }

  /** The title inside the page head: the first `<rend…</rend>` of the first
      `<pgHead…</pgHead>`, then its tag text. */
  function PageHeadTitle(meiXML: string): Option<string> {
    match Match(meiXML, "<pgHead", "</pgHead>")
    case None => None
    case Some(head) =>
      match Match(head, "<rend", "</rend>")
      case None => None
      case Some(rend) => TagText(rend)
  }

  /** The tag text of the first `<title>…</title>`. */
  function TitleElementTitle(meiXML: string): Option<string> {
    match Match(meiXML, "<title>", "</title>")
    case None => None
    case Some(title) => TagText(title)
  }

  const UnknownTitle := "Titre inconnu"

  /** `extractTitleFromMeiXML`: the page-head title if there is one, else the title
      element's, else "Titre inconnu". An empty title is a title (`??` only skips
      absent values). The result never contains '<'. */
  function ExtractTitleFromMeiXML(meiXML: string): (r: string)
    ensures PageHeadTitle(meiXML).Some? ==> r == PageHeadTitle(meiXML).value
    ensures PageHeadTitle(meiXML).None? && TitleElementTitle(meiXML).Some? ==> r == TitleElementTitle(meiXML).value
    ensures PageHeadTitle(meiXML).None? && TitleElementTitle(meiXML).None? ==> r == UnknownTitle
    ensures '<' !in r
  {
    PageHeadTitle(meiXML).GetOr(TitleElementTitle(meiXML).GetOr(UnknownTitle))
  }

  // ---------------------------------------------------------------- colour ramp

  /** The channels of this file's `getGradientColor`: the same ramp as the colour
      service's, without clamping the degree. */
  function GradientChannels(degree: real): (c: ColorService.Rgb)
    ensures c == ColorService.RampChannels(degree)
    ensures c.b == 0
  {
    if degree > 0.5 then
      ColorService.Interpolate(ColorService.DarkGreen, ColorService.DarkYellow, 200.0 * (degree - 0.5))
    else
      ColorService.Interpolate(ColorService.DarkYellow, ColorService.Red, 200.0 * degree)
  }

  /** `getGradientColor` of the data manager: interpolate along the half of the ramp
      the degree falls in, without clamping; the text of `GradientChannels`. */
  function GetGradientColor(degree: real): (t: string)
    ensures t == ColorService.RgbText(GradientChannels(degree))
  {
    if degree > 0.5 then
      ColorService.InterpolateBetweenColors(ColorService.DarkGreen, ColorService.DarkYellow, 200.0 * (degree - 0.5))
    else
      ColorService.InterpolateBetweenColors(ColorService.DarkYellow, ColorService.Red, 200.0 * degree)
  }

  /** On [0, 1] the two ramps agree; elsewhere the colour service's is this one at
      the clamped degree. The anchors are red, dark yellow and dark green. */
  lemma RampsAgree(degree: real)
    ensures ColorService.GetGradientColor(degree) == GetGradientColor(ColorService.Clamp(degree))
    ensures 0.0 <= degree <= 1.0 ==> ColorService.GetGradientColor(degree) == GetGradientColor(degree)
    ensures GetGradientColor(0.0) == "rgb(255, 0, 0)"
    ensures GetGradientColor(0.5) == "rgb(215, 215, 0)"
    ensures GetGradientColor(1.0) == "rgb(0, 179, 0)"
  {
    ColorService.GradientEndpoints();
  }

  /** Without clamping, a degree outside [0, 1] can give channels outside 0..255:
      degree 2 gives rgb(-430, 107, 0). */
  lemma UnclampedLeavesRange()
    ensures GradientChannels(2.0) == ColorService.Rgb(-430, 107, 0)
    ensures !ColorService.IsColor(GradientChannels(2.0))
  {
  }
}
