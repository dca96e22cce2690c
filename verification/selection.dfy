/** The fretboard's selection state: which notes are highlighted after a change of key or
    mode, and how a click on a position toggles it. */
module Selection {
  import opened Wrappers
  import opened Notes
  import Seqs
  import Scales
  import Board
  import Patterns

  /** The two families of fingering templates. */
  datatype PatternType = ThreeNps | Caged

  /** The notes of template `pi` of the chosen family, in `key`. */
  function PatternNotesOf(patternType: PatternType, key: Pitch, pi: int): (r: seq<Note>)
    ensures patternType == ThreeNps && !(0 <= pi < |Patterns.ThreeNpsPatterns|) ==> r == []
    ensures patternType == Caged && !(0 <= pi < |Patterns.CagedPatterns|) ==> r == []
    ensures Patterns.InKey(r, key, pi)
  {
    match patternType
    case ThreeNps => Patterns.Generate3NpsNotes(key, pi)
    case Caged => Patterns.GenerateCagedNotes(key, pi)
  }

  /** The notes of every listed template, concatenated in list order. */
  function AllPatternNotes(patternType: PatternType, key: Pitch, ps: seq<int>): seq<Note>
  {
    Seqs.FlatMap((pi: int) => PatternNotesOf(patternType, key, pi), ps)
  }

  /** Choosing more templates appends their notes after the notes already shown. */
  lemma AllPatternNotesAppend(patternType: PatternType, key: Pitch, a: seq<int>, b: seq<int>)
    ensures AllPatternNotes(patternType, key, a + b)
      == AllPatternNotes(patternType, key, a) + AllPatternNotes(patternType, key, b)
  {
    Seqs.FlatMapAppend((pi: int) => PatternNotesOf(patternType, key, pi), a, b);
  }

  /** The notes of the listed templates are exactly the notes of some listed template. */
  lemma AllPatternNotesMembers(patternType: PatternType, key: Pitch, ps: seq<int>, n: Note)
    ensures n in AllPatternNotes(patternType, key, ps) <==>
      exists j :: 0 <= j < |ps| && n in PatternNotesOf(patternType, key, ps[j])
  {
    Seqs.FlatMapMembers((pi: int) => PatternNotesOf(patternType, key, pi), ps, n);
  }

  /** Each listed template's notes sound on the board, carry the template's index and lie in
      the key's major scale, whatever scale type is selected. */
  lemma AllPatternNotesInKey(patternType: PatternType, key: Pitch, ps: seq<int>)
    ensures forall n :: n in AllPatternNotes(patternType, key, ps) ==>
      && Sounds(n) && Scales.InScale(n.pitch, key, Scales.Major)
      && n.patternIndex.Some? && n.patternIndex.value in ps
  {
    forall n | n in AllPatternNotes(patternType, key, ps)
      ensures Sounds(n) && Scales.InScale(n.pitch, key, Scales.Major)
      ensures n.patternIndex.Some? && n.patternIndex.value in ps
    {
      AllPatternNotesMembers(patternType, key, ps, n);
      var j :| 0 <= j < |ps| && n in PatternNotesOf(patternType, key, ps[j]);
      var b := PatternNotesOf(patternType, key, ps[j]);
      var k :| 0 <= k < |b| && b[k] == n;
      assert Patterns.InKey(b, key, ps[j]);
    }
  }

  /** `updateSelectedNotes`: note mode shows every position of the key's pitch; otherwise
      all-notes mode shows every position of the key's scale; otherwise the chosen
      templates' notes, in the order the templates are listed. */
  function UpdateSelectedNotes(patterns: seq<int>, key: Pitch, noteMode: bool, allNotesMode: bool,
                               patternType: PatternType, scaleType: string): (r: seq<Note>)
    ensures noteMode ==>
      && r == Board.AllNotesOfType(key)
      && Board.Enumerates(Board.PitchIs(key), r) && |r| == 12
    ensures !noteMode && allNotesMode ==>
      && r == Board.AllScaleNotes(key, scaleType)
      && Board.Enumerates(Board.ScaleOf(key, Scales.ScaleIntervals(scaleType)), r)
      && |r| == 12 * |Scales.ScaleIntervals(scaleType)|
    ensures !noteMode && !allNotesMode ==> r == AllPatternNotes(patternType, key, patterns)
    ensures !noteMode && !allNotesMode ==> forall n :: n in r <==>
      exists j :: 0 <= j < |patterns| && n in PatternNotesOf(patternType, key, patterns[j])
    ensures !noteMode && !allNotesMode ==> forall n :: n in r ==>
      && Sounds(n) && Scales.InScale(n.pitch, key, Scales.Major)
      && n.patternIndex.Some? && n.patternIndex.value in patterns
  {
    if noteMode then
      Board.BoardSpec(Board.PitchIs(key));
      Board.AllNotesOfType(key)
    else if allNotesMode then
      Board.BoardSpec(Board.ScaleOf(key, Scales.ScaleIntervals(scaleType)));
      Board.AllScaleNotes(key, scaleType)
    else if |patterns| == 0 then []
    else
      var r := AllPatternNotes(patternType, key, patterns);
      forall n
        ensures n in r <==> exists j :: 0 <= j < |patterns| && n in PatternNotesOf(patternType, key, patterns[j])
      {
        AllPatternNotesMembers(patternType, key, patterns, n);
      }
      AllPatternNotesInKey(patternType, key, patterns);
      r
  }

  /** Is `n` at string `s`, fret `f`? */
  predicate At(n: Note, s: int, f: int)
  {
    n.stringIndex == s && n.fret == f
  }

  /** The test `n => n.string === s && n.fret === f`. */
  function AtPosition(s: int, f: int): Note -> bool
  {
    (n: Note) => At(n, s, f)
  }

  /** The test `n => !(n.string === s && n.fret === f)`. */
  function Elsewhere(s: int, f: int): Note -> bool
  {
    (n: Note) => !At(n, s, f)
  }

  /** `handleNoteClick`: a click on a position that holds a selected note removes every note
      at that position; a click on any other position appends the note sounding there. */
  function HandleNoteClick(selected: seq<Note>, s: int, f: int): (r: seq<Note>)
    requires ValidString(s) && 0 <= f
    ensures (exists k :: 0 <= k < |selected| && At(selected[k], s, f)) ==>
      && (forall k :: 0 <= k < |r| ==> !At(r[k], s, f) && r[k] in selected)
      && (forall k :: 0 <= k < |selected| && !At(selected[k], s, f) ==> selected[k] in r)
      && (forall n :: !At(n, s, f) ==> multiset(r)[n] == multiset(selected)[n])
      && |r| < |selected|
    ensures (forall k :: 0 <= k < |selected| ==> !At(selected[k], s, f)) ==>
      |r| == |selected| + 1 && r[..|selected|] == selected && r[|selected|] == NoteAt(s, f)
  {
    var note := NoteAt(s, f);
    var isSelected := Seqs.Any(AtPosition(s, f), selected);
    if isSelected then
      var r := Seqs.Filter(Elsewhere(s, f), selected);
      FilterDropsOne(selected, s, f);
      forall n | !At(n, s, f)
        ensures multiset(r)[n] == multiset(selected)[n]
      {
        Seqs.FilterCount(Elsewhere(s, f), selected, n);
      }
      r
    else
      selected + [note]
  }

  /** Removing the notes at a position that holds one makes the list shorter. */
  lemma {:induction false} FilterDropsOne(selected: seq<Note>, s: int, f: int)
    requires exists k :: 0 <= k < |selected| && At(selected[k], s, f)
    ensures |Seqs.Filter(Elsewhere(s, f), selected)| < |selected|
  {
    var keep := Elsewhere(s, f);
    var k :| 0 <= k < |selected| && At(selected[k], s, f);
    assert selected == selected[..k] + [selected[k]] + selected[k + 1..];
    Seqs.FilterAppend(keep, selected[..k] + [selected[k]], selected[k + 1..]);
    Seqs.FilterAppend(keep, selected[..k], [selected[k]]);
    Seqs.FilterSingle(keep, selected[k]);
  }

  /** Clicking an occupied position filters each part of the selection separately: the
      notes that stay keep their relative order. */
  lemma ClickOffSplits(a: seq<Note>, b: seq<Note>, s: int, f: int)
    requires ValidString(s) && 0 <= f
    requires exists k :: 0 <= k < |a + b| && At((a + b)[k], s, f)
    ensures HandleNoteClick(a + b, s, f) == Seqs.Filter(Elsewhere(s, f), a) + Seqs.Filter(Elsewhere(s, f), b)
  {
    Seqs.FilterAppend(Elsewhere(s, f), a, b);
  }

  /** Clicking the one selected note at a position removes exactly that note and keeps the
      others in order. */
  lemma ClickOffKeepsOrder(a: seq<Note>, x: Note, b: seq<Note>, s: int, f: int)
    requires ValidString(s) && 0 <= f && At(x, s, f)
    requires forall k :: 0 <= k < |a| ==> !At(a[k], s, f)
    requires forall k :: 0 <= k < |b| ==> !At(b[k], s, f)
    ensures HandleNoteClick(a + [x] + b, s, f) == a + b
  {
    var c := a + [x] + b;
    assert c[|a|] == x;
    var keep := Elsewhere(s, f);
    Seqs.FilterOutOne(keep, a, x, b);
  }

  /** Clicking an empty position twice restores the selection. */
  lemma ClickTwice(selected: seq<Note>, s: int, f: int)
    requires ValidString(s) && 0 <= f
    requires forall k :: 0 <= k < |selected| ==> !At(selected[k], s, f)
    ensures HandleNoteClick(HandleNoteClick(selected, s, f), s, f) == selected
  {
    var once := HandleNoteClick(selected, s, f);
    var keep := Elsewhere(s, f);
    assert once == selected + [NoteAt(s, f)];
    assert At(once[|selected|], s, f);
    Seqs.FilterAppend(keep, selected, [NoteAt(s, f)]);
    Seqs.FilterSingle(keep, NoteAt(s, f));
    Seqs.FilterKeepsAll(keep, selected);
  }
}
