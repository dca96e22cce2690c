/** The application shell's list of active templates, toggled from its buttons. */
module App {
  import Seqs
  import opened Notes
  import Selection

  /** The filter test `p => p !== i`. */
  function Other(i: int): int -> bool
  {
    (p: int) => p != i
  }

  /** `handlePatternToggle`: an active template index is switched off (every copy of it is
      removed, the rest keep their order); an inactive one is switched on at the end. */
  function HandlePatternToggle(prev: seq<int>, i: int): (r: seq<int>)
    ensures i in prev ==> i !in r && forall x :: x != i ==> multiset(r)[x] == multiset(prev)[x]
    ensures i !in prev ==> r == prev + [i]
  {
    if i in prev then
      var r := Seqs.Filter(Other(i), prev);
      forall x | x != i
        ensures multiset(r)[x] == multiset(prev)[x]
      {
        Seqs.FilterCount(Other(i), prev, x);
      }
      r
    else
      prev + [i]
  }

  /** No template index listed twice. */
  predicate Distinct(xs: seq<int>)
  {
    forall a, b :: 0 <= a < b < |xs| ==> xs[a] != xs[b]
  }

  /** Toggling keeps the active list free of repeats. */
  lemma ToggleKeepsDistinct(prev: seq<int>, i: int)
    requires Distinct(prev)
    ensures Distinct(HandlePatternToggle(prev, i))
  {
    if i in prev {
      Seqs.FilterDistinct(Other(i), prev);
    }
  }

  /** Switching an inactive template on and off again restores the list. */
  lemma ToggleTwice(prev: seq<int>, i: int)
    requires i !in prev
    ensures HandlePatternToggle(HandlePatternToggle(prev, i), i) == prev
  {
    var keep := Other(i);
    assert i in prev + [i];
    Seqs.FilterAppend(keep, prev, [i]);
    Seqs.FilterSingle(keep, i);
    Seqs.FilterKeepsAll(keep, prev);
  }

  /** Switching a template off keeps the other active templates in their order. */
  lemma ToggleOffKeepsOrder(a: seq<int>, b: seq<int>, i: int)
    requires i !in a && i !in b
    ensures HandlePatternToggle(a + [i] + b, i) == a + b
  {
    assert i in a + [i] + b;
    Seqs.FilterOutOne(Other(i), a, i, b);
  }

  /** In pattern mode, switching a template on appends its notes to the highlighted ones. */
  lemma ToggleOnShowsPattern(prev: seq<int>, i: int, key: Pitch, patternType: Selection.PatternType,
                             scaleType: string)
    requires i !in prev
    ensures Selection.UpdateSelectedNotes(HandlePatternToggle(prev, i), key, false, false, patternType, scaleType)
      == Selection.UpdateSelectedNotes(prev, key, false, false, patternType, scaleType)
         + Selection.PatternNotesOf(patternType, key, i)
  {
    Selection.AllPatternNotesAppend(patternType, key, prev, [i]);
    assert Selection.AllPatternNotes(patternType, key, [i]) == Selection.PatternNotesOf(patternType, key, i) by {
      assert [i][..0] == [];
    }
  }
}
