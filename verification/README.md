# Guitar fretboard engine — a Dafny model

This project models the note engine behind a six-string guitar fretboard in standard
tuning (E B G D A E, high string first). The engine decides which board positions are
highlighted in each of its three modes:

- **note mode**: every position that sounds one pitch class (the current key);
- **all-notes mode**: every position whose pitch belongs to a chosen scale or mode on the
  key. The scales are major, natural minor, major pentatonic, dorian, phrygian, lydian,
  mixolydian and locrian.
- **pattern mode**: the fingering templates switched on by the user, taken from one of two
  families: seven 3-notes-per-string positions, or the five CAGED shapes. Each template is
  written for C and moved up to the key.

Alongside the modes, the engine labels a pitch with its scale degree ("1" … "7", or "♭n"
for a pitch outside the scale). It shows sharp names with flat spelling. A click on a
position toggles that position, and the application shell toggles templates on and off.

Modules, one per concern:

- `Notes` (`notes.dfy`): the twelve pitch names, the tuning and the 24 enumerated frets. It
  also holds the position mapper (`NoteAt`) and the flat re-spelling.
- `Scales` (`scales.dfy`): the eight interval tables, scale membership relative to a key,
  the degree label, and the root test.
- `Board` (`board.dfy`): the whole-board filters used by note mode and all-notes mode.
- `Patterns` (`patterns.dfy`): the two template tables and their transposition.
- `Selection` (`selection.dfy`): the mode switch that recomputes the highlighted notes, and
  the click toggle.
- `App` (`app.dfy`): the shell's template toggle.
- `Seqs` and `Wrappers`: the array methods the engine uses (`indexOf`, `filter`, `some`,
  `Math.min`, concatenation over a list), and `Option`.

A pitch is modelled as its index 0 … 11 in `ALL_KEYS` (`C` = 0, `B` = 11). The component
stores the name and looks it up with `ALL_KEYS.indexOf`. `KeyIndexOfName` proves the lookup is
inverse to indexing, so the two representations agree. The props `scaleType`, `currentKey`,
`patternType`, `noteMode` and `allNotesMode` become explicit parameters. `GuitarFretboard`
reads them from its props, and its helper functions read them from the enclosing closure.
The model returns each new state value where the component calls its setter.

Three behaviours of the code that the proofs make explicit:

- **Frets.** Notes are enumerated on frets 0 … 23 only, because `frets` has length 24
  (GuitarFretboard.tsx:207). The drawing reserves 25 columns, the open string plus 24
  frets (477-478), and draws a marker at fret 24 (208, 541-546). Even so, no note can sit
  on fret 24. As a result, every string holds each pitch class exactly twice
  (`Board.PitchTwicePerString`), and a scale of n notes lights exactly 12·n positions
  (`Board.ScaleBoard`).
- **Templates ignore the scale type.** Pattern notes always lie in the key's *major* scale,
  whatever scale type is selected (`Selection.AllPatternNotesInKey`).
- **Transposition wraps at 24.** For the shipped non-negative frets, `(fret + offset) % 24`
  (line 258) already lies in 0 … 23. So the range guard on line 259 can never fire
  (`Patterns.RowPlaced`). A template moved past the top of the board therefore wraps to
  the nut instead of being dropped. For example, the C shape in B plays frets 23, 0, 2 on
  the high E string (`Patterns.CShapeWrapsInB`).

## Model

| member | source | states |
|---|---|---|
| Notes.KeyIndex | src/components/GuitarFretboard.tsx:27 | Looking up a name gives -1 exactly for a name outside the twelve keys. Otherwise it gives the position holding that name. |
| Notes.KeyIndexOfName | src/components/GuitarFretboard.tsx:27 | The twelve names are distinct, so looking up the name at index p gives back p. |
| Notes.OpenPitch | src/components/GuitarFretboard.tsx:206 | The open pitch of string s is the pitch whose name is the tuning's s-th entry. |
| Notes.OpenPitchIsIndexOf | src/components/GuitarFretboard.tsx:224-226 | The open-pitch table equals looking each tuning name up in the key list. |
| Notes.NoteAt | src/components/GuitarFretboard.tsx:223-236 | The note at (s, f) keeps the string and fret and has no pattern tag. Its absolute pitch 12·(octave−4)+pitch is the open pitch plus f semitones. |
| Notes.SoundsIsNoteAt | src/components/GuitarFretboard.tsx:228-229 | Any note whose pitch and octave fit its position is the mapper's note there, up to the tag; pitch class and octave are determined by the position. |
| Notes.OctaveUp | src/components/GuitarFretboard.tsx:228-229 | Twelve frets higher is the same pitch class, one octave up. |
| Notes.SharpsToFlats | src/components/GuitarFretboard.tsx:212-221 | A name outside the five sharps is returned unchanged. A sharp name is replaced by the flat at the same index. |
| Notes.FlatSpellingDistinct | src/components/GuitarFretboard.tsx:212-221 | Re-spelling the twelve keys gives twelve distinct names, none containing '#'. |
| Seqs.IndexOf | src/components/GuitarFretboard.tsx:217 | The result is -1 exactly when x is absent. Otherwise xs holds x at the result and nowhere before it. |
| Seqs.Filter | src/App.tsx:16 | Only elements that pass the test are kept, and every element that passes is kept. |
| Seqs.FilterAppend | src/App.tsx:16 | Filtering distributes over concatenation, so the kept elements stay in order. |
| Seqs.FilterCount | src/App.tsx:16 | The filter keeps every copy of a passing element and no copy of a failing one. |
| Seqs.Any | src/components/GuitarFretboard.tsx:414 | `some` is true exactly when some element passes the test. |
| Seqs.Min | src/components/GuitarFretboard.tsx:452 | The minimum of a non-empty array is one of its elements and no larger than any of them. |
| Seqs.FlatMap | src/components/GuitarFretboard.tsx:395-407 | The `forEach` loop that appends each element's notes to an accumulator. Specified by `Seqs.FlatMapAppend`, because concatenation is preserved, and by `Seqs.FlatMapMembers`. |
| Seqs.FlatMapMembers | src/components/GuitarFretboard.tsx:396-407 | An element of the concatenated results occurs in the result for some element of the list, and conversely. |
| Scales.ScaleIntervals | src/components/GuitarFretboard.tsx:323-344 | Every table starts at 0, is strictly ascending and stays below 12. Pentatonic has 5 entries and the others 7. An unknown name gets the major table. |
| Scales.Relative | src/components/GuitarFretboard.tsx:444 | The key moved up by the result lands on the note. `Scales.RelativeSpec` shows that this interval is the unique one and equals the `% 12` form. |
| Scales.RelativeSpec | src/components/GuitarFretboard.tsx:444 | The relative index equals `(note - key + 12) % 12`. It is the unique interval that takes the key to the note. |
| Scales.DegreeLabel | src/components/GuitarFretboard.tsx:447-455 | The label is a plain degree exactly when the pitch is in the table. That degree is the first position that holds the pitch. The flat case is specified by `Scales.DegreeLabelSpec`. |
| Scales.MemberLabel | src/components/GuitarFretboard.tsx:447-458 | A pitch inside the scale is labelled with a degree n such that the n-th interval is that pitch. |
| Scales.FlatBelowLabel | src/components/GuitarFretboard.tsx:449-454 | A non-member lying between intervals j−1 and j is labelled ♭(j+1), the flat of the next degree above. |
| Scales.FlatWrapLabel | src/components/GuitarFretboard.tsx:449-454 | A non-member above the top interval is labelled ♭1, via the wrap-around candidate `iv[0] + 12`. |
| Scales.FindGap | src/components/GuitarFretboard.tsx:452 | A non-member lies either above the last interval or strictly between two consecutive intervals. |
| Scales.DegreeLabelSpec | src/components/GuitarFretboard.tsx:436-459 | The label number is in 1 … scale size. The label is a plain degree exactly for scale members. A flat label names the first degree above the pitch, or degree 1 when no degree lies above. |
| Scales.TonicOnlyDegreeOne | src/components/GuitarFretboard.tsx:447-458 | The label "1" is given to the tonic and to nothing else. |
| Scales.GetNoteNumber | src/components/GuitarFretboard.tsx:436-459 | The label is "1" exactly when the note is the key. Its number is a degree of the selected scale. |
| Scales.IsRootNote | src/components/GuitarFretboard.tsx:462-468 | A note is the root exactly when its degree label is "1", under every scale type. |
| Scales.MajorLabels | src/components/GuitarFretboard.tsx:326 | In major, one semitone above the tonic is "♭2" and five semitones is "4". |
| Scales.MinorWrapLabel | src/components/GuitarFretboard.tsx:328 | In natural minor, the major seventh wraps to "♭1". |
| Scales.PentatonicLabel | src/components/GuitarFretboard.tsx:330 | In the major pentatonic, the missing fourth is labelled "♭4", after the table's fourth entry (7 semitones). |
| Board.Row | src/components/GuitarFretboard.tsx:307-316 | The selected notes of one string, fret by fret. Specified by `Board.RowSelected`, `Board.RowAscending`, `Board.RowComplete` and `Board.RowLength`. |
| Board.Strings | src/components/GuitarFretboard.tsx:306-317 | The string-by-string enumeration shared by both whole-board filters. Specified by `Board.StringsSound`, `Board.StringsComplete` and `Board.BoardCount`. |
| Board.StringsSound | src/components/GuitarFretboard.tsx:306-317 | The enumeration of strings s … 5 holds only on-board, selected notes of those strings, strictly ascending by (string, fret). |
| Board.StringsComplete | src/components/GuitarFretboard.tsx:306-317 | Every selected position on strings s … 5 appears in that enumeration. |
| Board.BoardSpec | src/components/GuitarFretboard.tsx:306-317 | The filtered board holds exactly the selected positions, in board order. |
| Board.RowCount | src/components/GuitarFretboard.tsx:207 | Frets 0 … 23 of a string hold each selected pitch class twice. |
| Board.BoardCount | src/components/GuitarFretboard.tsx:206-207 | The whole board holds 12 positions per selected pitch class: 2 on each of the 6 strings. |
| Board.PitchTwicePerString | src/components/GuitarFretboard.tsx:207 | Every string sounds each pitch class on exactly two of its frets. |
| Board.ScaleOctaveHits | src/components/GuitarFretboard.tsx:361-362 | On any key, a scale covers exactly as many pitch classes per octave as its table has entries. |
| Board.AllNotesOfType | src/components/GuitarFretboard.tsx:303-320 | The result holds every position sounding the key and nothing else, in board order: exactly 12 notes. |
| Board.PitchBoardCount | src/components/GuitarFretboard.tsx:303-320 | One pitch class occurs 12 times on the board. |
| Board.ScaleBoard | src/components/GuitarFretboard.tsx:355-370 | The result holds exactly the positions whose pitch is in the scale on the key, in board order: 12 per scale entry. |
| Board.AllScaleNotes | src/components/GuitarFretboard.tsx:347-373 | The result holds exactly the positions in the selected scale on the key, in board order, with 12·(scale size) notes. |
| Patterns.FretWrap | src/components/GuitarFretboard.tsx:258 | The JavaScript `% 24` takes the dividend's sign and lies within 24 of zero. It differs from its argument by a multiple of 24. |
| Patterns.RowNotes | src/components/GuitarFretboard.tsx:254-263 | A row gives at most one note per slot. Every note lies on the row's string, on a fret in 0 … 23, and carries the template's index. |
| Patterns.TemplateNotes | src/components/GuitarFretboard.tsx:251-265 | Every note lies on one of strings s … 5, on a fret in 0 … 23, and carries the template's index. |
| Patterns.PatternNotes | src/components/GuitarFretboard.tsx:240-268 | An index outside the table gives no notes. Every note lies on the board and carries the index. |
| Patterns.Offset | src/components/GuitarFretboard.tsx:246-248 | The semitone offset from C to the key is the key's pitch index. |
| Patterns.RowPlaced | src/components/GuitarFretboard.tsx:254-263 | For non-negative frets, a row's notes are its filled slots, one for one and in order. Each is moved up by the offset and wrapped at 24; the range guard drops nothing. |
| Patterns.TemplatePlaced | src/components/GuitarFretboard.tsx:251-264 | A template's notes are its filled slots, string by string, each placed in the key. |
| Patterns.ThreeNpsInC | src/components/GuitarFretboard.tsx:30-115 | Each of the seven positions has six rows of three filled frets in 0 … 23, and every fret sounds a note of C major. |
| Patterns.CagedInC | src/components/GuitarFretboard.tsx:118-179 | Each of the five shapes has six rows of filled frets in 0 … 23, and every fret sounds a note of C major. |
| Patterns.ThreeNpsSize | src/components/GuitarFretboard.tsx:30-115 | Every 3-notes-per-string position has 18 slots. |
| Patterns.PlaceInKey | src/components/GuitarFretboard.tsx:258-262 | A C-major slot moved to the key sounds on the board. Its pitch is the C pitch moved up by the key, which lies in the key's major scale. |
| Patterns.PatternSpec | src/components/GuitarFretboard.tsx:239-268 | A C-major template moved to the key gives one note per slot, in template order, tagged with its index and in the key's major scale. |
| Patterns.ThreeNpsNotesSpec | src/components/GuitarFretboard.tsx:239-268 | A 3-notes-per-string position moved to any key gives 18 placed, tagged, in-key notes. |
| Patterns.CagedNotesSpec | src/components/GuitarFretboard.tsx:271-300 | A CAGED shape moved to any key gives its slots placed, tagged and in key. |
| Patterns.Generate3NpsNotes | src/components/GuitarFretboard.tsx:239-268 | An index outside the table gives no notes. Otherwise the result is the position's slots placed in the key: 18 notes, tagged with the index, all in the key's major scale. |
| Patterns.GenerateCagedNotes | src/components/GuitarFretboard.tsx:271-300 | An index outside the table gives no notes. Otherwise the result is the shape's slots placed in the key, tagged and in key. |
| Patterns.KeyOfCIsTemplate | src/components/GuitarFretboard.tsx:246-248 | In C (offset 0), every note sits exactly on its slot's written string and fret. |
| Patterns.Position1HighE | src/components/GuitarFretboard.tsx:34 | Position 1's first three notes are on frets 3, 5, 7 moved up by the key. The first sounds G moved up by the key; in D that gives frets 5, 7, 9. |
| Patterns.CShapeWrapsInB | src/components/GuitarFretboard.tsx:122 | In B, the C shape's high-E frets 12, 13, 15 become 23, 0 (an open E) and 2. |
| Patterns.PlaceBelow24 | src/components/GuitarFretboard.tsx:258 | A slot that stays below fret 24 moves up by exactly the offset. |
| Patterns.PlaceAbove24 | src/components/GuitarFretboard.tsx:258 | A slot pushed past fret 23 comes back 24 frets (two octaves) lower. |
| Selection.PatternNotesOf | src/components/GuitarFretboard.tsx:400-404 | An index outside the chosen family's table gives no notes. Every note sounds on the board, carries the index and lies in the key's major scale. |
| Selection.AllPatternNotes | src/components/GuitarFretboard.tsx:395-407 | The accumulated notes of the listed templates. Specified by `Selection.AllPatternNotesAppend`, `Selection.AllPatternNotesMembers` and `Selection.AllPatternNotesInKey`. |
| Selection.AllPatternNotesAppend | src/components/GuitarFretboard.tsx:396-407 | The notes of a list of templates are the notes of its first part followed by those of the rest. |
| Selection.AllPatternNotesMembers | src/components/GuitarFretboard.tsx:396-407 | A note is shown exactly when it belongs to some listed template's notes. |
| Selection.AllPatternNotesInKey | src/components/GuitarFretboard.tsx:396-407 | Every shown pattern note sounds on the board and lies in the key's major scale. Its tag is one of the listed template indices. |
| Selection.UpdateSelectedNotes | src/components/GuitarFretboard.tsx:376-410 | Note mode returns `generateAllNotesOfType`'s result: every position of the key's pitch and nothing else, once each, in board order, 12 in all. All-notes mode returns `generateAllScaleNotes`'s result: every position of the selected scale, once each, in board order, 12·(scale size) in all. Pattern mode returns the listed templates' notes concatenated in list order. A note is shown exactly when some listed template yields it, and each shown note is in key and tagged with a listed index. |
| Selection.HandleNoteClick | src/components/GuitarFretboard.tsx:412-421 | Clicking an occupied position removes every note there, keeps every copy of every other note, and shortens the list. Clicking an empty position appends the note sounding there and changes nothing else. |
| Selection.ClickOffSplits | src/components/GuitarFretboard.tsx:417 | Clicking an occupied position filters the two parts of the selection separately and concatenates them, so the remaining notes keep their order. |
| Selection.ClickOffKeepsOrder | src/components/GuitarFretboard.tsx:417 | Clicking the only note at a position removes exactly that note; the others stay in order. |
| Selection.FilterDropsOne | src/components/GuitarFretboard.tsx:417 | Removing the notes at an occupied position strictly shortens the list. |
| Selection.ClickTwice | src/components/GuitarFretboard.tsx:412-421 | Clicking an empty position twice restores the selection. |
| App.HandlePatternToggle | src/App.tsx:13-21 | An active index is switched off: no copy of it remains, and every other index keeps its count. An inactive index is appended at the end. |
| App.ToggleKeepsDistinct | src/App.tsx:13-21 | Toggling keeps a repeat-free list repeat-free. |
| App.ToggleTwice | src/App.tsx:13-21 | Switching an inactive template on and then off restores the list. |
| App.ToggleOffKeepsOrder | src/App.tsx:16 | Switching a template off keeps the other active templates in their order. |
| App.ToggleOnShowsPattern | src/App.tsx:18 | In pattern mode, switching a template on appends exactly that template's notes to the highlighted ones. |

## Left out

- Drawing: `drawFretboard` (GuitarFretboard.tsx:470-666), the SVG layout constants, the fret markers and the JSX are rendering only. They neither choose nor change notes.
- Colours: `getNoteColor` (423-433), `lightenColor` (669-690) and each template's `color` field choose display colours only.
- React state: the `useState`/`useRef` hooks (201-204) and the effects that call `updateSelectedNotes` on a prop change (693-707). The model's operations take the state as an argument and return the new value instead of calling a setter.
- `handleNoteClick` tests `selectedNotes` but filters `prev`. The model treats them as the same list, which holds whenever no other update is pending.
- Key names outside the twelve: keys and notes are pitch indices, so a name outside `ALL_KEYS` (index -1) cannot be passed to the generators. `Notes.KeyIndex` models the lookup's -1 case itself.
- Patterns.TemplateNotes: a template with fewer than six rows makes `generate3NPSNotes` and `generateCAGEDNotes` throw at the first missing row (reading `stringFrets.forEach` of `undefined`, lines 252-254). The model stops there instead. Every shipped template has six rows (`Patterns.ThreeNpsInC`, `Patterns.CagedInC`).
- `getNoteNumber` returns a string; the model returns a `Label` (`Degree(n)` prints as "n", `Flat(n)` as "♭n").
- `useNumberNotation` only changes what the drawing code prints, and is not modelled.
- App.tsx beyond `handlePatternToggle`: tabs, key and scale pickers, and page layout are user-interface wiring.
