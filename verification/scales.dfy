/** Scale engine: the eight interval tables, scale membership relative to a key,
    and the scale-degree label of a pitch (with the flat-of-next-degree fallback). */
module Scales {
  import Seqs
  import opened Notes

  const Major: seq<int> := [0, 2, 4, 5, 7, 9, 11]
  const Minor: seq<int> := [0, 2, 3, 5, 7, 8, 10]
  const Pentatonic: seq<int> := [0, 2, 4, 7, 9]
  const Dorian: seq<int> := [0, 2, 3, 5, 7, 9, 10]
  const Phrygian: seq<int> := [0, 1, 3, 5, 7, 8, 10]
  const Lydian: seq<int> := [0, 2, 4, 6, 7, 9, 11]
  const Mixolydian: seq<int> := [0, 2, 4, 5, 7, 9, 10]
  const Locrian: seq<int> := [0, 1, 3, 5, 6, 8, 10]

  const ScaleNames: seq<string> :=
    ["major", "minor", "pentatonic", "dorian", "phrygian", "lydian", "mixolydian", "locrian"]

  /** An interval table: starts at the tonic, strictly ascending, inside one octave. */
  predicate WellFormed(iv: seq<int>)
  {
    && |iv| > 0
    && iv[0] == 0
    && (forall a, b :: 0 <= a < b < |iv| ==> iv[a] < iv[b])
    && (forall k :: 0 <= k < |iv| ==> iv[k] < 12)
  }

  /** The interval table of a scale type; an unrecognised name gets the major table. */
  function ScaleIntervals(name: string): (iv: seq<int>)
    ensures WellFormed(iv)
    ensures |iv| == (if name == "pentatonic" then 5 else 7)
    ensures name !in ScaleNames ==> iv == Major
  {
    match name
    case "major" => Major
    case "minor" => Minor
    case "pentatonic" => Pentatonic
    case "dorian" => Dorian
    case "phrygian" => Phrygian
    case "lydian" => Lydian
    case "mixolydian" => Mixolydian
    case "locrian" => Locrian
    case _ => Major
  }

  /** Semitones from `key` up to `note`. `getNoteNumber` and `generateAllScaleNotes` compute
      `(noteIndex - keyIndex + 12) % 12`; for two pitches that is this case split (see
      `RelativeSpec`). */
  function Relative(note: Pitch, key: Pitch): (r: Pitch)
    ensures (key + r) % 12 == note
  {
    if key <= note then note - key else note - key + 12
  }

  /** `Relative` is `(note - key + 12) % 12` as `getNoteNumber` computes it, and it is the unique
      interval that transposes the key onto the note. */
  lemma RelativeSpec(note: Pitch, key: Pitch, r: Pitch)
    ensures Relative(note, key) == (note - key + 12) % 12
    ensures Relative(note, key) == r <==> (key + r) % 12 == note
  {
  }

  /** Is `note` one of the pitches of the scale with intervals `iv` on `key`? */
  predicate InScale(note: Pitch, key: Pitch, iv: seq<int>)
  {
    Relative(note, key) in iv
  }

  /** A degree label: `Degree(n)` prints as "n", `Flat(n)` as "♭n". */
  datatype Label = Degree(n: int) | Flat(n: int)

  /** The label of the pitch `rel` semitones above the tonic. A scale member gets its
      1-based position; any other pitch is labelled as the flat of the smallest interval
      above it, where the wrap-around candidate is `iv[0] + 12`. */
  function DegreeLabel(iv: seq<int>, rel: int): (l: Label)
    requires |iv| > 0
    ensures l.Degree? <==> rel in iv
    ensures l.Degree? ==> 1 <= l.n <= |iv| && iv[l.n - 1] == rel && rel !in iv[..l.n - 1]
  {
    var degreeIndex := Seqs.IndexOf(iv, rel);
    if degreeIndex == -1 then
      var higher := Seqs.Min(Seqs.Filter(i => i > rel, iv) + [iv[0] + 12]);
      Flat(Seqs.IndexOf(iv, higher % 12) + 1)
    else
      Degree(degreeIndex + 1)
  }

  /** A scale member is labelled with its 1-based position in the table. */
  lemma MemberLabel(iv: seq<int>, rel: int)
    requires WellFormed(iv) && rel in iv
    ensures var l := DegreeLabel(iv, rel);
      l.Degree? && 1 <= l.n <= |iv| && iv[l.n - 1] == rel
  {
  }

  /** A non-member below the top interval is the flat of the smallest interval above it. */
  lemma FlatBelowLabel(iv: seq<int>, rel: int, j: int)
    requires WellFormed(iv) && 0 <= rel < 12 && rel !in iv
    requires 0 < j < |iv| && iv[j - 1] < rel < iv[j]
    ensures DegreeLabel(iv, rel) == Flat(j + 1)
  {
    var above := Seqs.Filter(i => i > rel, iv);
    var cands := above + [iv[0] + 12];
    var higher := Seqs.Min(cands);
    assert iv[j] in above;
    var m :| 0 <= m < |above| && above[m] == iv[j];
    assert cands[m] == iv[j];
    assert higher <= iv[j];
    assert higher in above by {
      assert higher <= cands[0];
    }
    var h :| 0 <= h < |iv| && iv[h] == higher;
    assert h == j;
    Seqs.IndexOfDistinct(iv, j);
  }

  /** A non-member above the top interval wraps to the flat of degree 1. */
  lemma FlatWrapLabel(iv: seq<int>, rel: int)
    requires WellFormed(iv) && 0 <= rel < 12 && rel !in iv
    requires iv[|iv| - 1] < rel
    ensures DegreeLabel(iv, rel) == Flat(1)
  {
    var keep := i => i > rel;
    assert forall k :: 0 <= k < |iv| ==> iv[k] <= iv[|iv| - 1];
    Seqs.FilterKeepsNone(keep, iv);
    assert Seqs.Filter(keep, iv) + [iv[0] + 12] == [12];
    Seqs.IndexOfDistinct(iv, 0);
  }

  /** Locates the gap of the table that holds a non-member: either between two
      consecutive intervals or above the last one. */
  lemma {:induction false} FindGap(iv: seq<int>, rel: int, k: int) returns (j: int)
    requires WellFormed(iv) && rel !in iv && 0 < k <= |iv| && iv[k - 1] < rel
    ensures k <= j <= |iv|
    ensures iv[j - 1] < rel
    ensures j < |iv| ==> rel < iv[j]
    decreases |iv| - k
  {
    if k == |iv| || rel < iv[k] {
      j := k;
    } else {
      assert iv[k] != rel;
      j := FindGap(iv, rel, k + 1);
    }
  }

  /** The degree label of a scale member is its position; that of a non-member is the
      flat of the next scale degree above it, or of degree 1 when no degree lies above. */
  lemma DegreeLabelSpec(iv: seq<int>, rel: int)
    requires WellFormed(iv) && 0 <= rel < 12
    ensures var l := DegreeLabel(iv, rel);
      && 1 <= l.n <= |iv|
      && (l.Degree? <==> rel in iv)
      && (l.Degree? ==> iv[l.n - 1] == rel)
      && (l.Flat? ==> forall k :: 0 <= k < l.n - 1 ==> iv[k] < rel)
      && (l.Flat? && l.n > 1 ==> iv[l.n - 1] > rel)
      && (l.Flat? && l.n == 1 ==> forall k :: 0 <= k < |iv| ==> iv[k] < rel)
  {
    if rel in iv {
      MemberLabel(iv, rel);
    } else {
      assert iv[0] < rel;
      var j := FindGap(iv, rel, 1);
      if j < |iv| {
        FlatBelowLabel(iv, rel, j);
        assert forall k :: 0 <= k < j ==> iv[k] <= iv[j - 1];
      } else {
        FlatWrapLabel(iv, rel);
        assert forall k :: 0 <= k < |iv| ==> iv[k] <= iv[|iv| - 1];
      }
    }
  }

  /** Only the tonic is labelled "1": every other pitch gets a different label. */
  lemma TonicOnlyDegreeOne(iv: seq<int>, rel: int)
    requires WellFormed(iv) && 0 <= rel < 12
    ensures DegreeLabel(iv, rel) == Degree(1) <==> rel == 0
  {
    DegreeLabelSpec(iv, rel);
  }

  /** `getNoteNumber`: the degree label of `note` in the scale `scaleType` on `key`. */
  function GetNoteNumber(note: Pitch, key: Pitch, scaleType: string): (l: Label)
    ensures l == Degree(1) <==> note == key
    ensures 1 <= l.n <= |ScaleIntervals(scaleType)|
  {
    var iv := ScaleIntervals(scaleType);
    var rel := Relative(note, key);
    assert rel == 0 <==> note == key;
    DegreeLabelSpec(iv, rel);
    TonicOnlyDegreeOne(iv, rel);
    DegreeLabel(iv, rel)
  }

  /** `isRootNote`: the note has the key's pitch, which is exactly when its degree label is "1". */
  function IsRootNote(n: Note, key: Pitch): (b: bool)
    ensures forall scaleType :: b <==> GetNoteNumber(n.pitch, key, scaleType) == Degree(1)
  {
    KeyIndexOfName(n.pitch);
    KeyIndexOfName(key);
    KeyIndex(AllKeys[n.pitch]) == KeyIndex(AllKeys[key])
  }

  /** In major, the pitch a semitone above the tonic (C# in C) is "♭2" and the fourth is "4". */
  lemma MajorLabels(iv: seq<int>)
    requires iv == ScaleIntervals("major")
    ensures DegreeLabel(iv, 1) == Flat(2) && DegreeLabel(iv, 5) == Degree(4)
  {
    assert iv[0] == 0 && iv[1] == 2 && iv[3] == 5;
    FlatBelowLabel(iv, 1, 1);
    MemberLabel(iv, 5);
    Seqs.IndexOfDistinct(iv, 3);
  }

  /** In natural minor the major seventh (B in C) lies above every interval and wraps to "♭1". */
  lemma MinorWrapLabel(iv: seq<int>)
    requires iv == ScaleIntervals("minor")
    ensures DegreeLabel(iv, 11) == Flat(1)
  {
    assert iv[|iv| - 1] == 10;
    assert 11 !in iv;
    FlatWrapLabel(iv, 11);
  }

  /** The major pentatonic lacks the fourth (5 semitones); the next entry above it is the
      table's fourth one (7 semitones), so it is labelled "♭4". */
  lemma PentatonicLabel(iv: seq<int>)
    requires iv == ScaleIntervals("pentatonic")
    ensures DegreeLabel(iv, 5) == Flat(4)
  {
    assert iv[2] == 4 && iv[3] == 7;
    assert 5 !in iv;
    FlatBelowLabel(iv, 5, 3);
  }
}
