// The list edits shared by the chord, note and word editors: insertion at
// the selected row, deletion of a valid row, and the neighbour swaps behind
// the "move up"/"move down" buttons, with Python's list indexing.

module EditorList {
  import opened Common

  /** The position Python gives index `i` of a list of length `n`: negative
      indices count from the end. */
  function PyIndex(i: int, n: nat): (k: int)
    requires -(n as int) <= i < n
    ensures 0 <= k < n
    ensures i >= 0 ==> k == i
    ensures i < 0 ==> k == n + i
  {
    if i < 0 then n + i else i
  }

  /** `s.insert(i, x)` for a non-negative `i`: past the end it appends. */
  function Insert<T>(s: seq<T>, i: nat, x: T): (r: seq<T>)
    ensures |r| == |s| + 1
    ensures r[MinI(i, |s|)] == x
    ensures forall k :: 0 <= k < MinI(i, |s|) ==> r[k] == s[k]
    ensures forall k :: MinI(i, |s|) < k < |r| ==> r[k] == s[k - 1]
    ensures multiset(r) == multiset(s) + multiset{x}
  {
    var k := if i < |s| then i else |s|;
    assert s == s[..k] + s[k..];
    s[..k] + [x] + s[k..]
  }

  /** The guarded `del s[row]`: only a row inside the list is removed. */
  function Delete<T>(s: seq<T>, row: int): (r: seq<T>)
    ensures 0 <= row < |s| ==> |r| == |s| - 1 && multiset(r) + multiset{s[row]} == multiset(s)
    ensures 0 <= row < |s| ==> forall k :: 0 <= k < |r| ==> r[k] == if k < row then s[k] else s[k + 1]
    ensures !(0 <= row < |s|) ==> r == s
  {
    if 0 <= row < |s| then
      assert s == s[..row] + [s[row]] + s[row + 1..];
      s[..row] + s[row + 1..]
    else s
  }

  /** `s[i], s[j] = s[j], s[i]` with Python indices. */
  function Swap<T>(s: seq<T>, i: int, j: int): (r: seq<T>)
    requires -|s| <= i < |s| && -|s| <= j < |s|
    ensures |r| == |s|
    ensures multiset(r) == multiset(s)
    ensures r[PyIndex(i, |s|)] == s[PyIndex(j, |s|)] && r[PyIndex(j, |s|)] == s[PyIndex(i, |s|)]
    ensures forall k :: 0 <= k < |s| && k != PyIndex(i, |s|) && k != PyIndex(j, |s|) ==> r[k] == s[k]
  {
    var a, b := PyIndex(i, |s|), PyIndex(j, |s|);
    s[a := s[b]][b := s[a]]
  }

  /** "Move up": a selected row above the first swaps with the row above it.
      The selection is a table row, so it lies below the list's length. */
  function MoveUp<T>(s: seq<T>, row: int): (r: seq<T>)
    requires row < |s|
    ensures |r| == |s| && multiset(r) == multiset(s)
    ensures row > 0 ==> r[row - 1] == s[row] && r[row] == s[row - 1]
    ensures row > 0 ==> forall k :: 0 <= k < |s| && k != row && k != row - 1 ==> r[k] == s[k]
    ensures row <= 0 ==> r == s
  {
    if row > 0 then Swap(s, row, row - 1) else s
  }

  /** "Move down": any selection above the last row swaps with the row below
      it. No selection is row -1, which Python reads as the last row. */
  function MoveDown<T>(s: seq<T>, row: int): (r: seq<T>)
    requires row >= -1
    ensures |r| == |s| && multiset(r) == multiset(s)
    ensures 0 <= row < |s| - 1 ==> r[row] == s[row + 1] && r[row + 1] == s[row]
    ensures 0 <= row < |s| - 1 ==> forall k :: 0 <= k < |s| && k != row && k != row + 1 ==> r[k] == s[k]
    ensures row >= |s| - 1 ==> r == s
  {
    if row < |s| - 1 then Swap(s, row, row + 1) else s
  }

  /** With nothing selected, "move down" exchanges the first and the last
      entry. */
  lemma MoveDownWraps<T>(s: seq<T>)
    requires |s| >= 2
    ensures MoveDown(s, -1)[0] == s[|s| - 1] && MoveDown(s, -1)[|s| - 1] == s[0]
    ensures forall k :: 0 < k < |s| - 1 ==> MoveDown(s, -1)[k] == s[k]
  {
    assert PyIndex(-1, |s|) == |s| - 1;
  }

  /** Moving a row up and then moving it back down restores the list. */
  lemma MoveUpThenDown<T>(s: seq<T>, row: int)
    requires 0 < row < |s|
    ensures MoveDown(MoveUp(s, row), row - 1) == s
  {
    var u := MoveUp(s, row);
    var d := MoveDown(u, row - 1);
    assert forall k :: 0 <= k < |s| ==> d[k] == s[k];
  }

  /** Deleting the row just inserted gives the list back. */
  lemma DeleteInserted<T>(s: seq<T>, i: nat, x: T)
    ensures Delete(Insert(s, i, x), MinI(i, |s|)) == s
  {
    var r := Delete(Insert(s, i, x), MinI(i, |s|));
    assert forall k :: 0 <= k < |s| ==> r[k] == s[k];
  }
}
