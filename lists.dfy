/**
 * `Array.prototype.splice(start, 1)`, the positional deletion the delete
 * buttons perform, with the standard's clamping of the start index.
 */
module Lists {

  /** The start position `splice` actually uses: a negative start counts from
      the end, and the result is clamped to `0..len`. */
  function SpliceStart(len: nat, start: int): (k: nat)
    ensures k <= len
  {
    if start < 0 then (if len + start < 0 then 0 else len + start)
    else if start < len then start
    else len
  }

  /** `s.splice(start, 1)` applied to `s`: the list afterwards */
  function RemoveAt<T>(s: seq<T>, start: int): seq<T>
  {
    var k := SpliceStart(|s|, start);
    if k < |s| then s[..k] + s[k + 1..] else s
  }

  /** An in-range deletion drops exactly the element at that position; the
      others keep their relative order, and the contents lose exactly one
      occurrence of the removed element. */
  lemma RemoveAtInRange<T>(s: seq<T>, i: int)
    requires 0 <= i < |s|
    ensures |RemoveAt(s, i)| == |s| - 1
    ensures forall j :: 0 <= j < i ==> RemoveAt(s, i)[j] == s[j]
    ensures forall j :: i <= j < |s| - 1 ==> RemoveAt(s, i)[j] == s[j + 1]
    ensures multiset(RemoveAt(s, i)) + multiset{s[i]} == multiset(s)
  {
    assert s == s[..i] + [s[i]] + s[i + 1..];
  }

  /** A start at or past the end removes nothing. */
  lemma RemoveAtPastEnd<T>(s: seq<T>, i: int)
    requires i >= |s|
    ensures RemoveAt(s, i) == s
  {
  }

  /** A negative start counts from the end: `-1` is the last element, and a
      start before the beginning removes the first one. */
  lemma RemoveAtNegative<T>(s: seq<T>, i: int)
    requires i < 0 && s != []
    ensures RemoveAt(s, i) == RemoveAt(s, if |s| + i < 0 then 0 else |s| + i)
  {
  }
}
