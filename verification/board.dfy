/** Whole-board filters: every position of the board, string by string and fret by fret,
    whose pitch passes a test (one pitch class, or membership in a scale). */
module Board {
  import opened Wrappers
  import opened Notes
  import opened Scales

  /** The test a whole-board filter applies to each position's pitch. */
  datatype Selector = PitchIs(p: Pitch) | ScaleOf(key: Pitch, intervals: seq<int>)

  predicate Selects(sel: Selector, q: Pitch)
  {
    match sel
    case PitchIs(p) => q == p
    case ScaleOf(key, iv) => InScale(q, key, iv)
  }

  /** A note as the position mapper produces it: sounding at its position, untagged. */
  predicate OnBoard(n: Note)
  {
    Sounds(n) && n.patternIndex == None
  }

  /** Position in enumeration order: string-major, fret ascending. */
  function Rank(n: Note): int
  {
    FretCount * n.stringIndex + n.fret
  }

  /** Every note of `r` is on the board, on string `s` or above, and selected. */
  predicate AllSelected(sel: Selector, s: int, r: seq<Note>)
  {
    forall k :: 0 <= k < |r| ==> OnBoard(r[k]) && s <= r[k].stringIndex && Selects(sel, r[k].pitch)
  }

  lemma AllSelectedConcat(sel: Selector, s: int, a: seq<Note>, b: seq<Note>)
    requires AllSelected(sel, s, a) && AllSelected(sel, s, b)
    ensures AllSelected(sel, s, a + b)
  {
    var c := a + b;
    forall k | 0 <= k < |c|
      ensures OnBoard(c[k]) && s <= c[k].stringIndex && Selects(sel, c[k].pitch)
    {
      if k < |a| {
        assert c[k] == a[k];
      } else {
        assert c[k] == b[k - |a|];
      }
    }
  }

  /** Notes strictly ascending in board order. */
  predicate Ascending(r: seq<Note>)
  {
    forall a, b :: 0 <= a < b < |r| ==> Rank(r[a]) < Rank(r[b])
  }

  /** Every selected position of strings `s .. 5` appears in `r`. */
  predicate Covers(sel: Selector, s: nat, r: seq<Note>)
  {
    forall t, f ::
      s <= t < StringCount && 0 <= f < FretCount && Selects(sel, NoteAt(t, f).pitch) ==> NoteAt(t, f) in r
  }

  /** `r` lists exactly the selected positions of the whole board, each once, in board order. */
  predicate Enumerates(sel: Selector, r: seq<Note>)
  {
    AllSelected(sel, 0, r) && Covers(sel, 0, r) && Ascending(r)
  }

  lemma AscendingConcat(a: seq<Note>, b: seq<Note>, bound: int)
    requires Ascending(a) && Ascending(b)
    requires forall k :: 0 <= k < |a| ==> Rank(a[k]) < bound
    requires forall k :: 0 <= k < |b| ==> bound <= Rank(b[k])
    ensures Ascending(a + b)
  {
    var c := a + b;
    forall i, j | 0 <= i < j < |c|
      ensures Rank(c[i]) < Rank(c[j])
    {
      if j < |a| {
        assert c[i] == a[i] && c[j] == a[j];
      } else if i >= |a| {
        assert c[i] == b[i - |a|] && c[j] == b[j - |a|];
      } else {
        assert c[i] == a[i] && c[j] == b[j - |a|];
      }
    }
  }

  /** The selected notes of string `s` on frets `lo .. hi - 1`, in fret order. */
  function Row(sel: Selector, s: int, lo: nat, hi: nat): seq<Note>
    requires ValidString(s)
    decreases hi - lo
  {
    if lo >= hi then []
    else
      var n := NoteAt(s, lo);
      (if Selects(sel, n.pitch) then [n] else []) + Row(sel, s, lo + 1, hi)
  }

  /** The selected notes of strings `s .. 5`, each string's frets 0 .. 23 in order. */
  function Strings(sel: Selector, s: nat): seq<Note>
    requires s <= StringCount
    decreases StringCount - s
  {
    if s == StringCount then []
    else Row(sel, s, 0, FretCount) + Strings(sel, s + 1)
  }

  /** Every note of `r` lies on string `s`, on a fret in `lo .. hi - 1`. */
  predicate Within(s: int, lo: int, hi: int, r: seq<Note>)
  {
    forall k :: 0 <= k < |r| ==> r[k].stringIndex == s && lo <= r[k].fret < hi
  }

  /** A row's notes lie on its string, between frets `lo` and `hi`. */
  lemma {:induction false} RowPositions(sel: Selector, s: int, lo: nat, hi: nat)
    requires ValidString(s)
    ensures Within(s, lo, hi, Row(sel, s, lo, hi))
    decreases hi - lo
  {
    if lo < hi {
      var n := NoteAt(s, lo);
      var head := if Selects(sel, n.pitch) then [n] else [];
      var tail := Row(sel, s, lo + 1, hi);
      assert Row(sel, s, lo, hi) == head + tail;
      RowPositions(sel, s, lo + 1, hi);
      assert forall k :: 0 <= k < |head + tail| ==>
        (head + tail)[k] == if k < |head| then head[k] else tail[k - |head|];
    }
  }

  /** A row holds only selected, on-board notes. */
  lemma {:induction false} RowSelected(sel: Selector, s: int, lo: nat, hi: nat)
    requires ValidString(s) && hi <= FretCount
    ensures AllSelected(sel, s, Row(sel, s, lo, hi))
    decreases hi - lo
  {
    if lo < hi {
      var n := NoteAt(s, lo);
      var head := if Selects(sel, n.pitch) then [n] else [];
      assert Row(sel, s, lo, hi) == head + Row(sel, s, lo + 1, hi);
      RowSelected(sel, s, lo + 1, hi);
      AllSelectedConcat(sel, s, head, Row(sel, s, lo + 1, hi));
    }
  }

  /** A row is in fret order. */
  lemma {:induction false} RowAscending(sel: Selector, s: int, lo: nat, hi: nat)
    requires ValidString(s)
    ensures Ascending(Row(sel, s, lo, hi))
    decreases hi - lo
  {
    if lo < hi {
      var n := NoteAt(s, lo);
      var head := if Selects(sel, n.pitch) then [n] else [];
      var tail := Row(sel, s, lo + 1, hi);
      assert Row(sel, s, lo, hi) == head + tail;
      RowAscending(sel, s, lo + 1, hi);
      RowPositions(sel, s, lo + 1, hi);
      assert forall k :: 0 <= k < |tail| ==> FretCount * s + lo + 1 <= Rank(tail[k]);
      AscendingConcat(head, tail, FretCount * s + lo + 1);
    }
  }

  /** A row holds every selected note of its string between `lo` and `hi`. */
  lemma {:induction false} RowComplete(sel: Selector, s: int, lo: nat, hi: nat, f: int)
    requires ValidString(s) && lo <= f < hi && Selects(sel, NoteAt(s, f).pitch)
    ensures NoteAt(s, f) in Row(sel, s, lo, hi)
    decreases hi - lo
  {
    if f > lo {
      RowComplete(sel, s, lo + 1, hi, f);
    }
  }

  /** The board enumeration holds only selected notes of strings `s .. 5`, in board order. */
  lemma {:induction false} StringsSound(sel: Selector, s: nat)
    requires s <= StringCount
    ensures AllSelected(sel, s, Strings(sel, s)) && Ascending(Strings(sel, s))
    decreases StringCount - s
  {
    if s < StringCount {
      var row, rest := Row(sel, s, 0, FretCount), Strings(sel, s + 1);
      RowSelected(sel, s, 0, FretCount);
      RowAscending(sel, s, 0, FretCount);
      RowPositions(sel, s, 0, FretCount);
      StringsSound(sel, s + 1);
      AllSelectedConcat(sel, s, row, rest);
      AscendingConcat(row, rest, FretCount * (s + 1));
    }
  }

  /** The board enumeration holds every selected position of strings `s .. 5`. */
  lemma {:induction false} StringsComplete(sel: Selector, s: nat, t: int, f: int)
    requires s <= t < StringCount && 0 <= f < FretCount && Selects(sel, NoteAt(t, f).pitch)
    ensures NoteAt(t, f) in Strings(sel, s)
    decreases StringCount - s
  {
    if t == s {
      RowComplete(sel, s, 0, FretCount, f);
    } else {
      StringsComplete(sel, s + 1, t, f);
    }
  }

  /** The whole board, filtered: exactly the selected positions, in board order. */
  lemma BoardSpec(sel: Selector)
    ensures AllSelected(sel, 0, Strings(sel, 0))
    ensures Ascending(Strings(sel, 0))
    ensures Covers(sel, 0, Strings(sel, 0))
  {
    StringsSound(sel, 0);
    forall t, f | 0 <= t < StringCount && 0 <= f < FretCount && Selects(sel, NoteAt(t, f).pitch)
      ensures NoteAt(t, f) in Strings(sel, 0)
    {
      StringsComplete(sel, 0, t, f);
    }
  }

  // Counting. `Hits(sel, lo, hi)` counts the x in lo .. hi - 1 whose pitch class x % 12
  // is selected; a string whose open pitch is o sounds pitch (o + f) % 12 at fret f, so its
  // row over frets lo .. hi - 1 has Hits(sel, o + lo, o + hi) notes.

  function Hits(sel: Selector, lo: nat, hi: nat): nat
    decreases hi - lo
  {
    if lo >= hi then 0
    else (if Selects(sel, lo % 12) then 1 else 0) + Hits(sel, lo + 1, hi)
  }

  lemma {:induction false} RowLength(sel: Selector, s: int, lo: nat, hi: nat)
    requires ValidString(s)
    ensures |Row(sel, s, lo, hi)| == Hits(sel, OpenPitch(s) + lo, OpenPitch(s) + hi)
    decreases hi - lo
  {
    if lo < hi {
      var o := OpenPitch(s);
      var n := NoteAt(s, lo);
      RowLength(sel, s, lo + 1, hi);
      assert Row(sel, s, lo, hi) == (if Selects(sel, n.pitch) then [n] else []) + Row(sel, s, lo + 1, hi);
      assert n.pitch == (o + lo) % 12;
      assert o + (lo + 1) == o + lo + 1;
    }
  }

  lemma {:induction false} HitsSplit(sel: Selector, lo: nat, mid: nat, hi: nat)
    requires lo <= mid <= hi
    ensures Hits(sel, lo, hi) == Hits(sel, lo, mid) + Hits(sel, mid, hi)
    decreases mid - lo
  {
    if lo < mid {
      HitsSplit(sel, lo + 1, mid, hi);
    }
  }

  /** Pitch classes repeat every twelve semitones. */
  lemma {:induction false} HitsShift(sel: Selector, lo: nat, hi: nat)
    ensures Hits(sel, lo + 12, hi + 12) == Hits(sel, lo, hi)
    decreases hi - lo
  {
    if lo < hi {
      assert (lo + 12) % 12 == lo % 12;
      HitsShift(sel, lo + 1, hi);
    }
  }

  /** Any twelve consecutive semitones hit each pitch class once. */
  lemma HitsRotate(sel: Selector, o: nat)
    requires o <= 12
    ensures Hits(sel, o, o + 12) == Hits(sel, 0, 12)
  {
    HitsSplit(sel, o, 12, o + 12);
    HitsShift(sel, 0, o);
    HitsSplit(sel, 0, o, 12);
  }

  /** Frets 0 .. 23 of a string span two octaves: each selected pitch class twice. */
  lemma RowCount(sel: Selector, s: int)
    requires ValidString(s)
    ensures |Row(sel, s, 0, FretCount)| == 2 * Hits(sel, 0, 12)
  {
    var o: nat := OpenPitch(s);
    RowLength(sel, s, 0, FretCount);
    assert |Row(sel, s, 0, FretCount)| == Hits(sel, o, o + 24);
    TwoOctaves(sel, o);
  }

  /** Twenty-four consecutive semitones starting at `o <= 12` hit each pitch class twice. */
  lemma TwoOctaves(sel: Selector, o: nat)
    requires o <= 12
    ensures Hits(sel, o, o + 24) == 2 * Hits(sel, 0, 12)
  {
    HitsSplit(sel, o, o + 12, o + 24);
    HitsShift(sel, o, o + 12);
    assert o + 12 + 12 == o + 24;
    HitsRotate(sel, o);
  }

  /** The whole board holds each selected pitch class twice on each of the six strings. */
  lemma BoardCount(sel: Selector)
    ensures |Strings(sel, 0)| == 12 * Hits(sel, 0, 12)
  {
    var h := Hits(sel, 0, 12);
    StringsCount(sel, 0, h);
    SixStrings(h);
  }

  lemma SixStrings(h: nat)
    ensures TwoPerString(h, 0) == 12 * h
  {
  }

  /** Two octaves' worth of `h` hits on each of the strings `s .. 5`. */
  function TwoPerString(h: nat, s: nat): nat
    requires s <= StringCount
    decreases StringCount - s
  {
    if s == StringCount then 0 else 2 * h + TwoPerString(h, s + 1)
  }

  lemma {:induction false} StringsCount(sel: Selector, s: nat, h: nat)
    requires s <= StringCount && h == Hits(sel, 0, 12)
    ensures |Strings(sel, s)| == TwoPerString(h, s)
    decreases StringCount - s
  {
    if s < StringCount {
      assert Strings(sel, s) == Row(sel, s, 0, FretCount) + Strings(sel, s + 1);
      RowCount(sel, s);
      StringsCount(sel, s + 1, h);
    }
  }

  /** One pitch class is hit exactly once per octave. */
  lemma {:induction false} PitchHits(p: Pitch, lo: nat, hi: nat)
    requires lo <= hi <= 12
    ensures Hits(PitchIs(p), lo, hi) == if lo <= p < hi then 1 else 0
    decreases hi - lo
  {
    if lo < hi {
      PitchHits(p, lo + 1, hi);
    }
  }

  /** Within one octave, the hits of the scale on C are its interval table's members. */
  lemma {:induction false} MemberHitsCons(a: int, rest: seq<int>, lo: nat, hi: nat)
    requires hi <= 12 && a !in rest
    ensures Hits(ScaleOf(0, [a] + rest), lo, hi)
      == (if lo <= a < hi then 1 else 0) + Hits(ScaleOf(0, rest), lo, hi)
    decreases hi - lo
  {
    if lo < hi {
      MemberHitsCons(a, rest, lo + 1, hi);
      var x: Pitch := lo % 12;
      assert x == lo;
      assert Relative(x, 0) == x;
      assert (x in [a] + rest) <==> x == a || x in rest;
    }
  }

  /** An octave holds as many members of a well-formed interval table as the table has entries. */
  lemma {:induction false} MemberHits(iv: seq<int>)
    requires forall a, b :: 0 <= a < b < |iv| ==> iv[a] < iv[b]
    requires forall k :: 0 <= k < |iv| ==> 0 <= iv[k] < 12
    ensures Hits(ScaleOf(0, iv), 0, 12) == |iv|
  {
    if |iv| == 0 {
      PitchlessHits(0, 12);
    } else {
      assert iv == [iv[0]] + iv[1..];
      MemberHitsCons(iv[0], iv[1..], 0, 12);
      MemberHits(iv[1..]);
    }
  }

  lemma {:induction false} PitchlessHits(lo: nat, hi: nat)
    ensures Hits(ScaleOf(0, []), lo, hi) == 0
    decreases hi - lo
  {
    if lo < hi {
      PitchlessHits(lo + 1, hi);
    }
  }

  /** Counting a scale on `key` is counting the same table on C, shifted up by `d = 12 - key`. */
  lemma {:induction false} ScaleHitsShift(key: Pitch, iv: seq<int>, d: nat, lo: nat, hi: nat)
    requires d == 12 - key
    ensures Hits(ScaleOf(key, iv), lo, hi) == Hits(ScaleOf(0, iv), lo + d, hi + d)
    decreases hi - lo
  {
    if lo < hi {
      var y := lo + d;
      assert Relative(lo % 12, key) == y % 12;
      ScaleHitsShift(key, iv, d, lo + 1, hi);
    }
  }

  /** `generateAllNotesOfType`: every board position sounding `key`, in board order. */
  function AllNotesOfType(key: Pitch): (r: seq<Note>)
    ensures forall k :: 0 <= k < |r| ==> OnBoard(r[k]) && r[k].pitch == key
    ensures forall s, f ::
      ValidString(s) && 0 <= f < FretCount && NoteAt(s, f).pitch == key ==> NoteAt(s, f) in r
    ensures Ascending(r)
    ensures |r| == 12
  {
    var r := Strings(PitchIs(key), 0);
    BoardSpec(PitchIs(key));
    assert AllSelected(PitchIs(key), 0, r);
    PitchBoardCount(key);
    r
  }

  lemma PitchBoardCount(key: Pitch)
    ensures |Strings(PitchIs(key), 0)| == 12
  {
    BoardCount(PitchIs(key));
    PitchHits(key, 0, 12);
  }

  /** Frets 0 .. 23 of any string sound each pitch class exactly twice. */
  lemma PitchTwicePerString(p: Pitch, s: int)
    requires ValidString(s)
    ensures |Row(PitchIs(p), s, 0, FretCount)| == 2
  {
    RowCount(PitchIs(p), s);
    PitchHits(p, 0, 12);
  }

  /** Every board position whose pitch is in the scale with interval table `iv` on `key`,
      in board order: twelve positions (two per string) for each interval. */
  function ScaleBoard(key: Pitch, iv: seq<int>): (r: seq<Note>)
    requires WellFormed(iv)
    ensures forall k :: 0 <= k < |r| ==> OnBoard(r[k]) && InScale(r[k].pitch, key, iv)
    ensures forall s, f ::
      ValidString(s) && 0 <= f < FretCount && InScale(NoteAt(s, f).pitch, key, iv) ==> NoteAt(s, f) in r
    ensures Ascending(r)
    ensures |r| == 12 * |iv|
  {
    var r := Strings(ScaleOf(key, iv), 0);
    BoardSpec(ScaleOf(key, iv));
    ScaleSelection(key, iv, r);
    BoardCount(ScaleOf(key, iv));
    ScaleOctaveHits(key, iv);
    r
  }

  /** The scale selector's guarantees, restated with `InScale`. */
  lemma ScaleSelection(key: Pitch, iv: seq<int>, r: seq<Note>)
    requires AllSelected(ScaleOf(key, iv), 0, r) && Covers(ScaleOf(key, iv), 0, r)
    ensures forall k :: 0 <= k < |r| ==> OnBoard(r[k]) && InScale(r[k].pitch, key, iv)
    ensures forall s, f ::
      ValidString(s) && 0 <= f < FretCount && InScale(NoteAt(s, f).pitch, key, iv) ==> NoteAt(s, f) in r
  {
  }

  /** `generateAllScaleNotes`: every board position whose pitch is in the scale
      `scaleType` on `key`, in board order. */
  function AllScaleNotes(key: Pitch, scaleType: string): (r: seq<Note>)
    ensures forall k :: 0 <= k < |r| ==> OnBoard(r[k]) && InScale(r[k].pitch, key, ScaleIntervals(scaleType))
    ensures forall s, f ::
      ValidString(s) && 0 <= f < FretCount && InScale(NoteAt(s, f).pitch, key, ScaleIntervals(scaleType))
      ==> NoteAt(s, f) in r
    ensures Ascending(r)
    ensures |r| == 12 * |ScaleIntervals(scaleType)|
  {
    ScaleBoard(key, ScaleIntervals(scaleType))
  }

  /** A scale on any key hits as many pitch classes per octave as its table has entries. */
  lemma ScaleOctaveHits(key: Pitch, iv: seq<int>)
    requires WellFormed(iv)
    ensures Hits(ScaleOf(key, iv), 0, 12) == |iv|
  {
    var d: nat := 12 - key;
    var c := ScaleOf(0, iv);
    ScaleHitsShift(key, iv, d, 0, 12);
    assert Hits(ScaleOf(key, iv), 0, 12) == Hits(c, d, d + 12);
    HitsRotate(c, d);
    assert Hits(c, d, d + 12) == Hits(c, 0, 12);
    WellFormedRange(iv);
    MemberHits(iv);
  }

  lemma WellFormedRange(iv: seq<int>)
    requires WellFormed(iv)
    ensures forall k :: 0 <= k < |iv| ==> 0 <= iv[k] < 12
  {
    assert forall k :: 0 <= k < |iv| ==> iv[0] <= iv[k];
  }

}
