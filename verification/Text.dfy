/** Plain string search, as the host's page-text code uses it.

    Text is a sequence of characters and lower-casing works character by
    character, so it never changes a length or a position. */
module Text {

  /** `needle` stands in `hay` at offset `i`. */
  predicate OccursAt(hay: string, needle: string, i: int) {
    0 <= i && i + |needle| <= |hay| && hay[i..i + |needle|] == needle
  }

  /** `needle` stands somewhere in `hay`. */
  predicate Contains(hay: string, needle: string) {
    exists i :: 0 <= i <= |hay| && OccursAt(hay, needle, i)
  }

  function Lowered(lower: char -> char, s: string): (r: string)
    ensures |r| == |s|
    ensures forall i :: 0 <= i < |s| ==> r[i] == lower(s[i])
  {
    seq(|s|, i requires 0 <= i < |s| => lower(s[i]))
  }

  /** A slice with the bounds clipped to the text, as Python slices are. */
  function Slice(s: string, lo: int, hi: int): (r: string)
    ensures |r| <= |s|
    ensures 0 <= lo <= hi <= |s| ==> r == s[lo..hi]
  {
    var a := if lo < 0 then 0 else if lo > |s| then |s| else lo;
    var b := if hi > |s| then |s| else hi;
    if a <= b then s[a..b] else []
  }

  /** First occurrence at or after `from`, or -1. */
  method Find(hay: string, needle: string, from: nat) returns (found: int)
    ensures found == -1 ==> forall i :: from <= i ==> !OccursAt(hay, needle, i)
    ensures found != -1 ==> from <= found && OccursAt(hay, needle, found)
    ensures found != -1 ==> forall i :: from <= i < found ==> !OccursAt(hay, needle, i)
  {
    found := from;
    while found + |needle| <= |hay|
      invariant from <= found
      invariant forall i :: from <= i < found ==> !OccursAt(hay, needle, i)
    {
      if hay[found..found + |needle|] == needle { return; }
      found := found + 1;
    }
    found := -1;
  }

  /** Non-overlapping occurrences from offset `i` on, counted left to right. */
  function CountFrom(hay: string, needle: string, i: nat): nat
    requires |needle| > 0
    decreases |hay| - i
  {
    if i + |needle| > |hay| then 0
    else if hay[i..i + |needle|] == needle then 1 + CountFrom(hay, needle, i + |needle|)
    else CountFrom(hay, needle, i + 1)
  }

  /** The count is positive exactly when the needle occurs at all. */
  lemma {:induction false} CountPositive(hay: string, needle: string, i: nat)
    requires |needle| > 0
    ensures CountFrom(hay, needle, i) > 0 <==> exists k :: i <= k && OccursAt(hay, needle, k)
    decreases |hay| - i
  {
    if i + |needle| > |hay| {
    } else if hay[i..i + |needle|] == needle {
      assert OccursAt(hay, needle, i);
    } else {
      CountPositive(hay, needle, i + 1);
      assert !OccursAt(hay, needle, i);
    }
  }

  /** `at` are the occurrences from `i` on that do not overlap: each is the next one past the end of the one before,
      and none is left after the last. */
  ghost predicate AreCounted(hay: string, needle: string, i: int, at: seq<int>)
    decreases |at|
  {
    if at == [] then forall j :: i <= j ==> !OccursAt(hay, needle, j)
    else
      && i <= at[0] && OccursAt(hay, needle, at[0]) && (forall j :: i <= j < at[0] ==> !OccursAt(hay, needle, j))
      && AreCounted(hay, needle, at[0] + |needle|, at[1..])
  }

  lemma {:induction false} CountIsGreedy(hay: string, needle: string, i: nat) returns (at: seq<int>)
    requires |needle| > 0
    ensures |at| == CountFrom(hay, needle, i) && AreCounted(hay, needle, i, at)
    decreases |hay| - i
  {
    if i + |needle| > |hay| {
      at := [];
    } else if hay[i..i + |needle|] == needle {
      var rest := CountIsGreedy(hay, needle, i + |needle|);
      at := [i] + rest;
      assert at[1..] == rest;
    } else {
      at := CountIsGreedy(hay, needle, i + 1);
    }
  }
}
