/** Pitch model and fretboard position mapper: the twelve key names, the standard
    six-string tuning, and the mapping of a (string, fret) position to a note. */
module Notes {
  import opened Wrappers
  import Seqs

  /** The twelve pitch-class names in chromatic order; a pitch is an index into it. */
  const AllKeys: seq<string> := ["C", "C#", "D", "D#", "E", "F", "F#", "G", "G#", "A", "A#", "B"]

  type Pitch = p: int | 0 <= p < 12

  /** Open-string names, string 0 (high E) to string 5 (low E). */
  const Tuning: seq<string> := ["E", "B", "G", "D", "A", "E"]

  const StringCount := 6
  /** The board enumerates frets 0 .. FretCount - 1. */
  const FretCount := 24

  predicate ValidString(s: int) { 0 <= s < StringCount }

  /** `ALL_KEYS.indexOf(name)`: -1 for a name that is not one of the twelve. */
  function KeyIndex(name: string): (r: int)
    ensures r == -1 <==> name !in AllKeys
    ensures 0 <= r ==> r < 12 && AllKeys[r] == name
  {
    Seqs.IndexOf(AllKeys, name)
  }

  /** The twelve names are distinct, so looking a name up gives back its pitch. */
  lemma KeyIndexOfName(p: Pitch)
    ensures KeyIndex(AllKeys[p]) == p
  {
    Seqs.IndexOfDistinct(AllKeys, p);
  }

  /** The pitch of an open string, `ALL_KEYS.indexOf(strings[s])`. */
  function OpenPitch(s: int): (p: Pitch)
    requires ValidString(s)
    ensures AllKeys[p] == Tuning[s]
  {
    [4, 11, 7, 2, 9, 4][s]
  }

  /** The open-string table agrees with looking each tuning name up in `AllKeys`. */
  lemma OpenPitchIsIndexOf(s: int)
    requires ValidString(s)
    ensures OpenPitch(s) == KeyIndex(Tuning[s])
  {
    KeyIndexOfName(OpenPitch(s));
  }

  /** A note on the board. `pitch` is the index of the note's name in `AllKeys`;
      `patternIndex` is set only on notes produced by a pattern template. */
  datatype Note = Note(pitch: Pitch, octave: int, stringIndex: int, fret: int, patternIndex: Option<int>)

  /** The note's letter name (sharp spelling). */
  function Name(n: Note): string
  {
    AllKeys[n.pitch]
  }

  /** The note sounding at fret `f` of string `s`, base octave 4 for the open C. */
  function NoteAt(s: int, f: int): (n: Note)
    requires ValidString(s) && 0 <= f
    ensures n.stringIndex == s && n.fret == f && n.patternIndex == None
    ensures 12 * (n.octave - 4) + n.pitch == OpenPitch(s) + f
  {
    var o := OpenPitch(s);
    Note((o + f) % 12, (o + f) / 12 + 4, s, f, None)
  }

  /** A note on a string and a fret of the board (frets 0 .. 23) whose pitch and octave
      are those that position sounds; see `SoundsIsNoteAt`. */
  predicate Sounds(n: Note)
  {
    && ValidString(n.stringIndex)
    && 0 <= n.fret < FretCount
    && 12 * (n.octave - 4) + n.pitch == OpenPitch(n.stringIndex) + n.fret
  }

  /** Pitch and octave are determined by the position: a sounding note is `NoteAt`'s,
      up to its pattern tag. */
  lemma SoundsIsNoteAt(n: Note)
    requires Sounds(n)
    ensures n == NoteAt(n.stringIndex, n.fret).(patternIndex := n.patternIndex)
  {
    var m := NoteAt(n.stringIndex, n.fret);
    var d := n.octave - m.octave;
    assert 12 * d == m.pitch - n.pitch;
    assert -1 < d < 1;
  }

  /** Twelve frets higher is the same pitch one octave up. */
  lemma OctaveUp(s: int, f: int)
    requires ValidString(s) && 0 <= f
    ensures NoteAt(s, f + 12).pitch == NoteAt(s, f).pitch
    ensures NoteAt(s, f + 12).octave == NoteAt(s, f).octave + 1
  {
    var a, b := NoteAt(s, f), NoteAt(s, f + 12);
    var d := b.octave - a.octave - 1;
    assert 12 * d == a.pitch - b.pitch;
    assert -1 < d < 1;
  }

  const Sharps: seq<string> := ["C#", "D#", "F#", "G#", "A#"]
  const Flats: seq<string> := ["Db", "Eb", "Gb", "Ab", "Bb"]

  /** Display spelling: the five sharp names become their flat equivalents;
      every other string is returned unchanged. */
  function SharpsToFlats(name: string): (r: string)
    ensures name !in Sharps ==> r == name
    ensures name in Sharps ==> exists k :: 0 <= k < |Sharps| && Sharps[k] == name && r == Flats[k]
  {
    var k := Seqs.IndexOf(Sharps, name);
    if k != -1 then Flats[k] else name
  }

  /** The flat spelling of the twelve names is again twelve distinct names, none with a sharp sign. */
  lemma FlatSpellingDistinct(p: Pitch, q: Pitch)
    ensures '#' !in SharpsToFlats(AllKeys[p])
    ensures p != q ==> SharpsToFlats(AllKeys[p]) != SharpsToFlats(AllKeys[q])
  {
    var display := ["C", "Db", "D", "Eb", "E", "F", "Gb", "G", "Ab", "A", "Bb", "B"];
    assert forall a, b :: 0 <= a < b < 12 ==> display[a] != display[b];
    assert forall a :: 0 <= a < 12 ==> '#' !in display[a];
    FlatSpelling(p, display);
    FlatSpelling(q, display);
  }

  lemma FlatSpelling(p: Pitch, display: seq<string>)
    requires display == ["C", "Db", "D", "Eb", "E", "F", "Gb", "G", "Ab", "A", "Bb", "B"]
    ensures SharpsToFlats(AllKeys[p]) == display[p]
  {
  }
}
