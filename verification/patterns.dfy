/** Scale-position templates: the 3-notes-per-string and CAGED fingering tables, and
    their transposition from C to the current key. */
module Patterns {
  import opened Wrappers
  import opened Notes
  import Scales

  /** A fingering template: for each of the six strings, the frets it uses in C major.
      A slot may be empty. The display colour of a template is not modelled. */
  datatype Template = Template(name: string, positions: seq<seq<Option<int>>>)

  /** The seven 3-notes-per-string positions, each written for the key of C. */
  const ThreeNpsPatterns: seq<Template> :=
    [Position1, Position2, Position3, Position4, Position5, Position6, Position7]

  const Position1: Template := Template("Position 1", [
    [Some(3), Some(5), Some(7)],
    [Some(3), Some(5), Some(6)],
    [Some(2), Some(4), Some(5)],
    [Some(2), Some(3), Some(5)],
    [Some(2), Some(3), Some(5)],
    [Some(1), Some(3), Some(5)]])

  const Position2: Template := Template("Position 2", [
    [Some(5), Some(7), Some(8)],
    [Some(5), Some(6), Some(8)],
    [Some(4), Some(5), Some(7)],
    [Some(3), Some(5), Some(7)],
    [Some(3), Some(5), Some(7)],
    [Some(3), Some(5), Some(7)]])

  const Position3: Template := Template("Position 3", [
    [Some(7), Some(8), Some(10)],
    [Some(6), Some(8), Some(10)],
    [Some(5), Some(7), Some(9)],
    [Some(5), Some(7), Some(9)],
    [Some(5), Some(7), Some(8)],
    [Some(5), Some(7), Some(8)]])

  const Position4: Template := Template("Position 4", [
    [Some(8), Some(10), Some(12)],
    [Some(8), Some(10), Some(12)],
    [Some(7), Some(9), Some(10)],
    [Some(7), Some(9), Some(10)],
    [Some(7), Some(8), Some(10)],
    [Some(7), Some(8), Some(10)]])

  const Position5: Template := Template("Position 5", [
    [Some(10), Some(12), Some(13)],
    [Some(10), Some(12), Some(13)],
    [Some(9), Some(10), Some(12)],
    [Some(9), Some(10), Some(12)],
    [Some(8), Some(10), Some(12)],
    [Some(8), Some(10), Some(12)]])

  const Position6: Template := Template("Position 6", [
    [Some(12), Some(13), Some(15)],
    [Some(12), Some(13), Some(15)],
    [Some(10), Some(12), Some(14)],
    [Some(10), Some(12), Some(14)],
    [Some(10), Some(12), Some(14)],
    [Some(10), Some(12), Some(13)]])

  const Position7: Template := Template("Position 7", [
    [Some(13), Some(15), Some(17)],
    [Some(13), Some(15), Some(17)],
    [Some(12), Some(14), Some(16)],
    [Some(12), Some(14), Some(15)],
    [Some(12), Some(14), Some(15)],
    [Some(12), Some(13), Some(15)]])

  /** The five CAGED shapes, each written for the key of C. */
  const CagedPatterns: seq<Template> := [CShape, AShape, GShape, EShape, DShape]

  const CShape: Template := Template("C形", [
    [Some(12), Some(13), Some(15)],
    [Some(12), Some(13), Some(15)],
    [Some(12), Some(14)],
    [Some(12), Some(14), Some(15)],
    [Some(12), Some(14), Some(15)],
    [Some(12), Some(13), Some(15)]])

  const AShape: Template := Template("A形", [
    [Some(3), Some(5)],
    [Some(3), Some(5), Some(6)],
    [Some(2), Some(4), Some(5)],
    [Some(2), Some(3), Some(5)],
    [Some(2), Some(3), Some(5)],
    [Some(3), Some(5)]])

  const GShape: Template := Template("G形", [
    [Some(5), Some(7), Some(8)],
    [Some(5), Some(6), Some(8)],
    [Some(4), Some(5), Some(7)],
    [Some(5), Some(7)],
    [Some(5), Some(7), Some(8)],
    [Some(5), Some(7), Some(8)]])

  const EShape: Template := Template("E形", [
    [Some(7), Some(8), Some(10)],
    [Some(8), Some(10)],
    [Some(7), Some(9), Some(10)],
    [Some(7), Some(9), Some(10)],
    [Some(7), Some(8), Some(10)],
    [Some(7), Some(8), Some(10)]])

  const DShape: Template := Template("D形", [
    [Some(10), Some(12), Some(13)],
    [Some(10), Some(12), Some(13)],
    [Some(9), Some(10), Some(12)],
    [Some(9), Some(10), Some(12)],
    [Some(10), Some(12)],
    [Some(10), Some(12), Some(13)]])

  /** `a % 24` as JavaScript computes it: truncating, so the remainder has the sign of `a`. */
  function FretWrap(a: int): (r: int)
    ensures a >= 0 ==> 0 <= r < 24
    ensures a < 0 ==> -24 < r <= 0
    ensures (a - r) % 24 == 0
  {
    if a >= 0 then a % 24 else -((-a) % 24)
  }

  /** Semitones from C up to the key, `(indexOf(key) - indexOf("C") + 12) % 12`. */
  function Offset(key: Pitch): (d: int)
    ensures d == key
  {
    KeyIndexOfName(key);
    KeyIndexOfName(0);
    assert AllKeys[0] == "C";
    var c := KeyIndex("C");
    var i := KeyIndex(AllKeys[key]);
    DropOctave(i - c + 12);
    (i - c + 12) % 12
  }

  lemma DropOctave(x: int)
    requires 12 <= x < 24
    ensures x % 12 == x - 12
  {
  }

  /** The notes of one template string: every non-empty slot is moved up by `offset`
      frets, wrapped at 24, dropped if it falls outside 0 .. 23, and tagged with the
      template's index. */
  function RowNotes(s: int, row: seq<Option<int>>, offset: int, pi: int): (r: seq<Note>)
    requires ValidString(s)
    ensures |r| <= |row|
    ensures forall k :: 0 <= k < |r| ==>
      r[k].stringIndex == s && 0 <= r[k].fret < FretCount && r[k].patternIndex == Some(pi)
  {
    if |row| == 0 then []
    else
      var rest := RowNotes(s, row[1..], offset, pi);
      match row[0]
      case None => rest
      case Some(fret) =>
        var adjusted := FretWrap(fret + offset);
        if adjusted < 0 || adjusted >= FretCount then rest
        else [NoteAt(s, adjusted).(patternIndex := Some(pi))] + rest
  }

  /** The notes of strings `s` .. 5 of a template, string by string. A template with fewer
      than six rows makes `generate3NPSNotes` throw at the first missing row; here that row and the
      ones after it contribute nothing. */
  function TemplateNotes(t: Template, offset: int, pi: int, s: nat): (r: seq<Note>)
    requires s <= StringCount
    ensures forall k :: 0 <= k < |r| ==>
      s <= r[k].stringIndex < StringCount && 0 <= r[k].fret < FretCount && r[k].patternIndex == Some(pi)
    decreases StringCount - s
  {
    if s == StringCount || s >= |t.positions| then []
    else RowNotes(s, t.positions[s], offset, pi) + TemplateNotes(t, offset, pi, s + 1)
  }

  /** The shared body of `generate3NPSNotes` and `generateCAGEDNotes`: an index outside
      the table gives no notes; otherwise the template is transposed to `key`. */
  function PatternNotes(table: seq<Template>, key: Pitch, pi: int): (r: seq<Note>)
    ensures !(0 <= pi < |table|) ==> r == []
    ensures forall k :: 0 <= k < |r| ==>
      ValidString(r[k].stringIndex) && 0 <= r[k].fret < FretCount && r[k].patternIndex == Some(pi)
  {
    if pi < 0 || pi >= |table| then []
    else TemplateNotes(table[pi], Offset(key), pi, 0)
  }

  // ---------------------------------------------------------------------------
  // Reference definition: the filled slots of a template, and where they land.
  // ---------------------------------------------------------------------------

  /** A filled template slot: a string and a fret written for the key of C. */
  datatype Slot = Slot(stringIndex: int, fret: int)

  function RowSlots(s: int, row: seq<Option<int>>): seq<Slot>
  {
    if |row| == 0 then []
    else
      var rest := RowSlots(s, row[1..]);
      if row[0].Some? then [Slot(s, row[0].value)] + rest else rest
  }

  /** The filled slots of strings `s` .. 5, in reading order. */
  function TemplateSlots(t: Template, s: nat): seq<Slot>
    requires s <= StringCount
    decreases StringCount - s
  {
    if s == StringCount || s >= |t.positions| then [] else RowSlots(s, t.positions[s]) + TemplateSlots(t, s + 1)
  }

  /** Where a slot lands in `key`: `key` frets higher, wrapped into 0 .. 23. */
  function Place(e: Slot, key: Pitch, pi: int): Note
    requires ValidString(e.stringIndex)
  {
    NoteAt(e.stringIndex, (e.fret + key) % FretCount).(patternIndex := Some(pi))
  }

  /** `r` is the slots `es`, one for one, placed in `key`. */
  predicate Placed(r: seq<Note>, es: seq<Slot>, key: Pitch, pi: int)
  {
    && |r| == |es|
    && forall k :: 0 <= k < |r| ==> ValidString(es[k].stringIndex) && r[k] == Place(es[k], key, pi)
  }

  lemma PlacedConcat(r1: seq<Note>, e1: seq<Slot>, r2: seq<Note>, e2: seq<Slot>, key: Pitch, pi: int)
    requires Placed(r1, e1, key, pi) && Placed(r2, e2, key, pi)
    ensures Placed(r1 + r2, e1 + e2, key, pi)
  {
    assert forall k :: |r1| <= k < |r1 + r2| ==> (r1 + r2)[k] == r2[k - |r1|] && (e1 + e2)[k] == e2[k - |r1|];
  }

  /** No slot of a row holds a negative fret. */
  predicate Unsigned(row: seq<Option<int>>)
  {
    forall c :: 0 <= c < |row| && row[c].Some? ==> 0 <= row[c].value
  }

  /** With non-negative frets the range guard never drops a slot: a row's notes are
      exactly its filled slots, placed in the key. */
  lemma {:induction false} RowPlaced(s: int, row: seq<Option<int>>, key: Pitch, pi: int)
    requires ValidString(s) && Unsigned(row)
    ensures Placed(RowNotes(s, row, key, pi), RowSlots(s, row), key, pi)
  {
    if |row| > 0 {
      assert Unsigned(row[1..]) by {
        assert forall c :: 0 <= c < |row[1..]| ==> row[1..][c] == row[c + 1];
      }
      RowPlaced(s, row[1..], key, pi);
      var rest := RowNotes(s, row[1..], key, pi);
      var restSlots := RowSlots(s, row[1..]);
      if row[0].Some? {
        var fret := row[0].value;
        assert FretWrap(fret + key) == (fret + key) % 24;
        assert RowNotes(s, row, key, pi) == [Place(Slot(s, fret), key, pi)] + rest;
        assert RowSlots(s, row) == [Slot(s, fret)] + restSlots;
        PlacedConcat([Place(Slot(s, fret), key, pi)], [Slot(s, fret)], rest, restSlots, key, pi);
      } else {
        assert RowNotes(s, row, key, pi) == rest;
        assert RowSlots(s, row) == restSlots;
      }
    }
  }

  lemma {:induction false} TemplatePlaced(t: Template, key: Pitch, pi: int, s: nat)
    requires s <= StringCount <= |t.positions|
    requires forall r :: 0 <= r < StringCount ==> Unsigned(t.positions[r])
    ensures Placed(TemplateNotes(t, key, pi, s), TemplateSlots(t, s), key, pi)
    decreases StringCount - s
  {
    if s < StringCount {
      RowPlaced(s, t.positions[s], key, pi);
      TemplatePlaced(t, key, pi, s + 1);
      PlacedConcat(RowNotes(s, t.positions[s], key, pi), RowSlots(s, t.positions[s]),
        TemplateNotes(t, key, pi, s + 1), TemplateSlots(t, s + 1), key, pi);
    }
  }

  // ---------------------------------------------------------------------------
  // The tables are C-major fingerings.
  // ---------------------------------------------------------------------------

  /** The pitches of C major, spelled out. */
  predicate WhiteKey(p: int)
  {
    p == 0 || p == 2 || p == 4 || p == 5 || p == 7 || p == 9 || p == 11
  }

  lemma WhiteKeyIsMajor(p: Pitch)
    ensures WhiteKey(p) <==> Scales.InScale(p, 0, Scales.Major)
  {
  }

  /** A filled slot on string `s` whose fret lies on the board and sounds a note of C major. */
  predicate SlotInC(s: int, slot: Option<int>)
    requires ValidString(s)
  {
    slot.Some? && 0 <= slot.value < FretCount && WhiteKey((OpenPitch(s) + slot.value) % 12)
  }

  /** Every slot of the row satisfies `SlotInC`. */
  predicate RowInC(s: int, row: seq<Option<int>>)
    requires ValidString(s)
  {
    |row| == 0 || (SlotInC(s, row[0]) && RowInC(s, row[1..]))
  }

  /** A template with a row per string, every slot a C-major note on the board. */
  predicate TemplateInC(t: Template)
  {
    && |t.positions| == StringCount
    && forall s :: 0 <= s < StringCount ==> RowInC(s, t.positions[s])
  }

  lemma Position1InC()
    ensures TemplateInC(Position1)
  {
    assert RowInC(0, [Some(3), Some(5), Some(7)]);
    assert RowInC(1, [Some(3), Some(5), Some(6)]);
    assert RowInC(2, [Some(2), Some(4), Some(5)]);
    assert RowInC(3, [Some(2), Some(3), Some(5)]);
    assert RowInC(4, [Some(2), Some(3), Some(5)]);
    assert RowInC(5, [Some(1), Some(3), Some(5)]);
  }

  lemma Position2InC()
    ensures TemplateInC(Position2)
  {
    assert RowInC(0, [Some(5), Some(7), Some(8)]);
    assert RowInC(1, [Some(5), Some(6), Some(8)]);
    assert RowInC(2, [Some(4), Some(5), Some(7)]);
    assert RowInC(3, [Some(3), Some(5), Some(7)]);
    assert RowInC(4, [Some(3), Some(5), Some(7)]);
    assert RowInC(5, [Some(3), Some(5), Some(7)]);
  }

  lemma Position3InC()
    ensures TemplateInC(Position3)
  {
    assert RowInC(0, [Some(7), Some(8), Some(10)]);
    assert RowInC(1, [Some(6), Some(8), Some(10)]);
    assert RowInC(2, [Some(5), Some(7), Some(9)]);
    assert RowInC(3, [Some(5), Some(7), Some(9)]);
    assert RowInC(4, [Some(5), Some(7), Some(8)]);
    assert RowInC(5, [Some(5), Some(7), Some(8)]);
  }

  lemma Position4InC()
    ensures TemplateInC(Position4)
  {
    assert RowInC(0, [Some(8), Some(10), Some(12)]);
    assert RowInC(1, [Some(8), Some(10), Some(12)]);
    assert RowInC(2, [Some(7), Some(9), Some(10)]);
    assert RowInC(3, [Some(7), Some(9), Some(10)]);
    assert RowInC(4, [Some(7), Some(8), Some(10)]);
    assert RowInC(5, [Some(7), Some(8), Some(10)]);
  }

  lemma Position5InC()
    ensures TemplateInC(Position5)
  {
    assert RowInC(0, [Some(10), Some(12), Some(13)]);
    assert RowInC(1, [Some(10), Some(12), Some(13)]);
    assert RowInC(2, [Some(9), Some(10), Some(12)]);
    assert RowInC(3, [Some(9), Some(10), Some(12)]);
    assert RowInC(4, [Some(8), Some(10), Some(12)]);
    assert RowInC(5, [Some(8), Some(10), Some(12)]);
  }

  lemma Position6InC()
    ensures TemplateInC(Position6)
  {
    assert RowInC(0, [Some(12), Some(13), Some(15)]);
    assert RowInC(1, [Some(12), Some(13), Some(15)]);
    assert RowInC(2, [Some(10), Some(12), Some(14)]);
    assert RowInC(3, [Some(10), Some(12), Some(14)]);
    assert RowInC(4, [Some(10), Some(12), Some(14)]);
    assert RowInC(5, [Some(10), Some(12), Some(13)]);
  }

  lemma Position7InC()
    ensures TemplateInC(Position7)
  {
    assert RowInC(0, [Some(13), Some(15), Some(17)]);
    assert RowInC(1, [Some(13), Some(15), Some(17)]);
    assert RowInC(2, [Some(12), Some(14), Some(16)]);
    assert RowInC(3, [Some(12), Some(14), Some(15)]);
    assert RowInC(4, [Some(12), Some(14), Some(15)]);
    assert RowInC(5, [Some(12), Some(13), Some(15)]);
  }

  lemma CShapeInC()
    ensures TemplateInC(CShape)
  {
    assert RowInC(0, [Some(12), Some(13), Some(15)]);
    assert RowInC(1, [Some(12), Some(13), Some(15)]);
    assert RowInC(2, [Some(12), Some(14)]);
    assert RowInC(3, [Some(12), Some(14), Some(15)]);
    assert RowInC(4, [Some(12), Some(14), Some(15)]);
    assert RowInC(5, [Some(12), Some(13), Some(15)]);
  }

  lemma AShapeInC()
    ensures TemplateInC(AShape)
  {
    assert RowInC(0, [Some(3), Some(5)]);
    assert RowInC(1, [Some(3), Some(5), Some(6)]);
    assert RowInC(2, [Some(2), Some(4), Some(5)]);
    assert RowInC(3, [Some(2), Some(3), Some(5)]);
    assert RowInC(4, [Some(2), Some(3), Some(5)]);
    assert RowInC(5, [Some(3), Some(5)]);
  }

  lemma GShapeInC()
    ensures TemplateInC(GShape)
  {
    assert RowInC(0, [Some(5), Some(7), Some(8)]);
    assert RowInC(1, [Some(5), Some(6), Some(8)]);
    assert RowInC(2, [Some(4), Some(5), Some(7)]);
    assert RowInC(3, [Some(5), Some(7)]);
    assert RowInC(4, [Some(5), Some(7), Some(8)]);
    assert RowInC(5, [Some(5), Some(7), Some(8)]);
  }

  lemma EShapeInC()
    ensures TemplateInC(EShape)
  {
    assert RowInC(0, [Some(7), Some(8), Some(10)]);
    assert RowInC(1, [Some(8), Some(10)]);
    assert RowInC(2, [Some(7), Some(9), Some(10)]);
    assert RowInC(3, [Some(7), Some(9), Some(10)]);
    assert RowInC(4, [Some(7), Some(8), Some(10)]);
    assert RowInC(5, [Some(7), Some(8), Some(10)]);
  }

  lemma DShapeInC()
    ensures TemplateInC(DShape)
  {
    assert RowInC(0, [Some(10), Some(12), Some(13)]);
    assert RowInC(1, [Some(10), Some(12), Some(13)]);
    assert RowInC(2, [Some(9), Some(10), Some(12)]);
    assert RowInC(3, [Some(9), Some(10), Some(12)]);
    assert RowInC(4, [Some(10), Some(12)]);
    assert RowInC(5, [Some(10), Some(12), Some(13)]);
  }

  /** Each 3-notes-per-string position is a C-major fingering with three notes on every string. */
  lemma ThreeNpsInC(i: int)
    requires 0 <= i < |ThreeNpsPatterns|
    ensures TemplateInC(ThreeNpsPatterns[i])
    ensures forall s :: 0 <= s < StringCount ==> |ThreeNpsPatterns[i].positions[s]| == 3
  {
    Position1InC(); Position2InC(); Position3InC(); Position4InC();
    Position5InC(); Position6InC(); Position7InC();
  }

  /** Each CAGED shape is a C-major fingering. */
  lemma CagedInC(i: int)
    requires 0 <= i < |CagedPatterns|
    ensures TemplateInC(CagedPatterns[i])
  {
    CShapeInC(); AShapeInC(); GShapeInC(); EShapeInC(); DShapeInC();
  }

  // ---------------------------------------------------------------------------
  // Transposition keeps the fingering in the key.
  // ---------------------------------------------------------------------------

  /** A slot on a real string, on the board, sounding a note of C major. */
  predicate SlotOk(e: Slot)
  {
    ValidString(e.stringIndex) && 0 <= e.fret < FretCount && WhiteKey((OpenPitch(e.stringIndex) + e.fret) % 12)
  }

  /** Sum of the row lengths of strings `s` .. 5. */
  function Size(t: Template, s: nat): nat
    requires s <= StringCount
    decreases StringCount - s
  {
    if s == StringCount || s >= |t.positions| then 0 else |t.positions[s]| + Size(t, s + 1)
  }

  /** A C-major row has no empty slot: its slots are its frets, in order. */
  lemma {:induction false} RowSlotsInC(s: int, row: seq<Option<int>>)
    requires ValidString(s) && RowInC(s, row)
    ensures Unsigned(row)
    ensures |RowSlots(s, row)| == |row|
    ensures forall k :: 0 <= k < |row| ==> row[k].Some? && RowSlots(s, row)[k] == Slot(s, row[k].value)
    ensures forall k :: 0 <= k < |row| ==> SlotOk(RowSlots(s, row)[k])
  {
    if |row| > 0 {
      RowSlotsInC(s, row[1..]);
      assert RowSlots(s, row) == [Slot(s, row[0].value)] + RowSlots(s, row[1..]);
    }
  }

  lemma {:induction false} TemplateSlotsInC(t: Template, s: nat)
    requires s <= StringCount && TemplateInC(t)
    ensures |TemplateSlots(t, s)| == Size(t, s)
    ensures forall k :: 0 <= k < |TemplateSlots(t, s)| ==> SlotOk(TemplateSlots(t, s)[k])
    decreases StringCount - s
  {
    if s < StringCount {
      RowSlotsInC(s, t.positions[s]);
      TemplateSlotsInC(t, s + 1);
      var a, b := RowSlots(s, t.positions[s]), TemplateSlots(t, s + 1);
      assert forall k :: |a| <= k < |a + b| ==> (a + b)[k] == b[k - |a|];
    }
  }

  /** A C-major slot placed in `key` sounds on the board, its pitch is the C pitch moved up
      by `key` semitones, and that pitch belongs to the major scale of `key`. */
  lemma PlaceInKey(e: Slot, key: Pitch, pi: int)
    requires SlotOk(e)
    ensures Sounds(Place(e, key, pi))
    ensures Place(e, key, pi).pitch == (NoteAt(e.stringIndex, e.fret).pitch + key) % 12
    ensures Scales.InScale(Place(e, key, pi).pitch, key, Scales.Major)
  {
    var o := OpenPitch(e.stringIndex);
    var c := (o + e.fret) % 12;
    var n := Place(e, key, pi);
    ShiftPitch(o, e.fret, key);
    assert n.pitch == (c + key) % 12;
    Scales.RelativeSpec(n.pitch, key, c);
    WhiteKeyIsMajor(c);
  }

  lemma ShiftPitch(o: int, f: int, key: int)
    requires 0 <= o < 12 && 0 <= f < 24 && 0 <= key < 12
    ensures (o + (f + key) % 24) % 12 == ((o + f) % 12 + key) % 12
  {
    if f + key < 24 {
      assert (f + key) % 24 == f + key;
    } else {
      assert (f + key) % 24 == f + key - 24;
    }
  }

  /** Every note of `r` sounds on the board, carries the tag `pi` and is in the key's major scale. */
  predicate InKey(r: seq<Note>, key: Pitch, pi: int)
  {
    forall k :: 0 <= k < |r| ==>
      Sounds(r[k]) && r[k].patternIndex == Some(pi) && Scales.InScale(r[k].pitch, key, Scales.Major)
  }

  /** A C-major template transposed to `key`: one note per slot, in template order, each
      `key` frets higher (wrapping at fret 24), all in the key's major scale. */
  lemma PatternSpec(table: seq<Template>, key: Pitch, pi: int)
    requires 0 <= pi < |table| && TemplateInC(table[pi])
    ensures Placed(PatternNotes(table, key, pi), TemplateSlots(table[pi], 0), key, pi)
    ensures |PatternNotes(table, key, pi)| == Size(table[pi], 0)
    ensures InKey(PatternNotes(table, key, pi), key, pi)
  {
    var t := table[pi];
    var es := TemplateSlots(t, 0);
    TemplateSlotsInC(t, 0);
    forall r | 0 <= r < StringCount
      ensures Unsigned(t.positions[r])
    {
      RowSlotsInC(r, t.positions[r]);
    }
    TemplatePlaced(t, key, pi, 0);
    forall k | 0 <= k < |es|
      ensures Sounds(Place(es[k], key, pi)) && Scales.InScale(Place(es[k], key, pi).pitch, key, Scales.Major)
    {
      PlaceInKey(es[k], key, pi);
    }
  }

  /** Each 3-notes-per-string position has eighteen notes, three per string. */
  lemma ThreeNpsSize(i: int)
    requires 0 <= i < |ThreeNpsPatterns|
    ensures Size(ThreeNpsPatterns[i], 0) == 18
  {
    ThreeNpsInC(i);
  }

  lemma ThreeNpsNotesSpec(key: Pitch, pi: int)
    requires 0 <= pi < |ThreeNpsPatterns|
    ensures Placed(PatternNotes(ThreeNpsPatterns, key, pi), TemplateSlots(ThreeNpsPatterns[pi], 0), key, pi)
    ensures |PatternNotes(ThreeNpsPatterns, key, pi)| == 18
    ensures InKey(PatternNotes(ThreeNpsPatterns, key, pi), key, pi)
  {
    ThreeNpsInC(pi);
    PatternSpec(ThreeNpsPatterns, key, pi);
    ThreeNpsSize(pi);
  }

  lemma CagedNotesSpec(key: Pitch, pi: int)
    requires 0 <= pi < |CagedPatterns|
    ensures Placed(PatternNotes(CagedPatterns, key, pi), TemplateSlots(CagedPatterns[pi], 0), key, pi)
    ensures |PatternNotes(CagedPatterns, key, pi)| == Size(CagedPatterns[pi], 0)
    ensures InKey(PatternNotes(CagedPatterns, key, pi), key, pi)
  {
    CagedInC(pi);
    PatternSpec(CagedPatterns, key, pi);
  }

  /** `generate3NPSNotes`: the `pi`-th position transposed to `key`; nothing for an index
      outside the table. */
  function Generate3NpsNotes(key: Pitch, pi: int): (r: seq<Note>)
    ensures !(0 <= pi < |ThreeNpsPatterns|) ==> r == []
    ensures 0 <= pi < |ThreeNpsPatterns| ==>
      Placed(r, TemplateSlots(ThreeNpsPatterns[pi], 0), key, pi) && |r| == 18
    ensures InKey(r, key, pi)
  {
    if 0 <= pi < |ThreeNpsPatterns| then
      ThreeNpsNotesSpec(key, pi);
      PatternNotes(ThreeNpsPatterns, key, pi)
    else
      PatternNotes(ThreeNpsPatterns, key, pi)
  }

  /** `generateCAGEDNotes`: the `pi`-th CAGED shape transposed to `key`; nothing for an index
      outside the table. */
  function GenerateCagedNotes(key: Pitch, pi: int): (r: seq<Note>)
    ensures !(0 <= pi < |CagedPatterns|) ==> r == []
    ensures 0 <= pi < |CagedPatterns| ==>
      Placed(r, TemplateSlots(CagedPatterns[pi], 0), key, pi) && |r| == Size(CagedPatterns[pi], 0)
    ensures InKey(r, key, pi)
  {
    if 0 <= pi < |CagedPatterns| then
      CagedNotesSpec(key, pi);
      PatternNotes(CagedPatterns, key, pi)
    else
      PatternNotes(CagedPatterns, key, pi)
  }

  /** In C a template's notes sit exactly on its written strings and frets. */
  lemma KeyOfCIsTemplate(table: seq<Template>, pi: int)
    requires 0 <= pi < |table| && TemplateInC(table[pi])
    ensures |PatternNotes(table, 0, pi)| == |TemplateSlots(table[pi], 0)|
    ensures forall k :: 0 <= k < |PatternNotes(table, 0, pi)| ==>
      && PatternNotes(table, 0, pi)[k].stringIndex == TemplateSlots(table[pi], 0)[k].stringIndex
      && PatternNotes(table, 0, pi)[k].fret == TemplateSlots(table[pi], 0)[k].fret
  {
    var r, es := PatternNotes(table, 0, pi), TemplateSlots(table[pi], 0);
    PatternSpec(table, 0, pi);
    TemplateSlotsInC(table[pi], 0);
    forall k | 0 <= k < |r|
      ensures r[k].stringIndex == es[k].stringIndex && r[k].fret == es[k].fret
    {
      assert r[k] == Place(es[k], 0, pi) && SlotOk(es[k]);
      PlaceInC(es[k], pi);
    }
  }

  lemma PlaceInC(e: Slot, pi: int)
    requires SlotOk(e)
    ensures Place(e, 0, pi).stringIndex == e.stringIndex && Place(e, 0, pi).fret == e.fret
  {
    assert (e.fret + 0) % 24 == e.fret;
  }

  /** The first slots of a template are those of its first row (string 0, high E). */
  lemma FirstRow(t: Template)
    requires TemplateInC(t)
    ensures |t.positions[0]| <= |TemplateSlots(t, 0)|
    ensures forall k :: 0 <= k < |t.positions[0]| ==>
      t.positions[0][k].Some? && TemplateSlots(t, 0)[k] == Slot(0, t.positions[0][k].value)
  {
    RowSlotsInC(0, t.positions[0]);
    var a, b := RowSlots(0, t.positions[0]), TemplateSlots(t, 1);
    assert TemplateSlots(t, 0) == a + b;
    assert forall k :: 0 <= k < |a| ==> (a + b)[k] == a[k];
  }

  /** Position 1 on the high E string: frets 3, 5, 7 in C, the first sounding G (pitch 7),
      all moved up by the key; in D that is frets 5, 7, 9 starting on A. */
  lemma Position1HighE(key: Pitch)
    ensures |Generate3NpsNotes(key, 0)| == 18
    ensures Generate3NpsNotes(key, 0)[0].fret == 3 + key
    ensures Generate3NpsNotes(key, 0)[1].fret == 5 + key
    ensures Generate3NpsNotes(key, 0)[2].fret == 7 + key
    ensures Generate3NpsNotes(key, 0)[0].pitch == (7 + key) % 12
  {
    Position1InC();
    FirstRow(Position1);
    var es := TemplateSlots(Position1, 0);
    assert es[0] == Slot(0, 3) && es[1] == Slot(0, 5) && es[2] == Slot(0, 7);
    var r := Generate3NpsNotes(key, 0);
    assert r[0] == Place(es[0], key, 0) && r[1] == Place(es[1], key, 0) && r[2] == Place(es[2], key, 0);
    PlaceBelow24(es[0], key, 0);
    PlaceBelow24(es[1], key, 0);
    PlaceBelow24(es[2], key, 0);
  }

  /** The C shape moved to B runs off the top of the board and wraps: on the high E string
      its frets 12, 13, 15 become 23, 0 and 2. */
  lemma CShapeWrapsInB(key: Pitch)
    requires key == 11
    ensures |GenerateCagedNotes(key, 0)| >= 3
    ensures GenerateCagedNotes(key, 0)[0].fret == 23
    ensures GenerateCagedNotes(key, 0)[1].fret == 0 && Name(GenerateCagedNotes(key, 0)[1]) == "E"
    ensures GenerateCagedNotes(key, 0)[2].fret == 2
  {
    CShapeInC();
    FirstRow(CShape);
    var es := TemplateSlots(CShape, 0);
    assert es[0] == Slot(0, 12) && es[1] == Slot(0, 13) && es[2] == Slot(0, 15);
    var b := GenerateCagedNotes(key, 0);
    assert b[0] == Place(es[0], key, 0) && b[1] == Place(es[1], key, 0) && b[2] == Place(es[2], key, 0);
    PlaceBelow24(es[0], key, 0);
    PlaceAbove24(es[1], key, 0);
    PlaceAbove24(es[2], key, 0);
  }

  /** A slot that stays below fret 24 after transposition moves up by exactly `key` frets. */
  lemma PlaceBelow24(e: Slot, key: Pitch, pi: int)
    requires ValidString(e.stringIndex) && 0 <= e.fret && e.fret + key < 24
    ensures Place(e, key, pi).fret == e.fret + key
    ensures Place(e, key, pi).pitch == (OpenPitch(e.stringIndex) + e.fret + key) % 12
  {
    assert (e.fret + key) % 24 == e.fret + key;
  }

  /** A slot pushed past fret 23 wraps back down by 24 frets, two octaves. */
  lemma PlaceAbove24(e: Slot, key: Pitch, pi: int)
    requires ValidString(e.stringIndex) && 24 <= e.fret + key < 48
    ensures Place(e, key, pi).fret == e.fret + key - 24
    ensures Place(e, key, pi).pitch == (OpenPitch(e.stringIndex) + e.fret + key - 24) % 12
  {
    assert (e.fret + key) % 24 == e.fret + key - 24;
  }
}
