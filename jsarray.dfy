/** What JavaScript's `Array.prototype.splice(start, 1)` leaves in an array, on its contents. */
module JsArray {

  /** The position `splice` starts at: a negative start counts back from the end
      and stops at 0, a start past the end stops at the length. */
  function SpliceStart(len: nat, start: int): (k: nat)
    ensures k <= len
    ensures 0 <= start <= len ==> k == start
    ensures start < 0 && -start <= len ==> k == len + start
    ensures start < 0 && -start > len ==> k == 0
    ensures start > len ==> k == len
  {
    if start < 0 then (if len + start < 0 then 0 else len + start)
    else if start > len then len
    else start
  }

  /** The contents of `a` after `a.splice(start, 1)`. */
  function SpliceOne<T>(s: seq<T>, start: int): (r: seq<T>)
    // an index in range removes exactly that element and shifts the rest left
    ensures 0 <= start < |s| ==> |r| == |s| - 1
    ensures 0 <= start < |s| ==> forall i | 0 <= i < start :: r[i] == s[i]
    ensures 0 <= start < |s| ==> forall i | start <= i < |r| :: r[i] == s[i + 1]
    // an index at or past the end removes nothing
    ensures start >= |s| ==> r == s
    // a negative index removes the element that many places from the end (the first one if it reaches past the start)
    ensures start < 0 && |s| > 0 ==> |r| == |s| - 1
    ensures -|s| <= start < 0 ==> r == s[..|s| + start] + s[|s| + start + 1..]
    ensures start < -|s| ==> r == if |s| == 0 then s else s[1..]
  {
    var k := SpliceStart(|s|, start);
    if k < |s| then s[..k] + s[k + 1..] else s
  }

  /** `s` without its element at `i`. */
  function RemoveAt<T>(s: seq<T>, i: nat): (r: seq<T>)
    requires i < |s|
    ensures |r| == |s| - 1
    ensures forall j | 0 <= j < i :: r[j] == s[j]
    ensures forall j | i <= j < |r| :: r[j] == s[j + 1]
  {
    s[..i] + s[i + 1..]
  }

  /** `s` with `x` inserted so that it lands at position `i`. */
  function InsertAt<T>(s: seq<T>, i: nat, x: T): (r: seq<T>)
    requires i <= |s|
    ensures |r| == |s| + 1 && r[i] == x
    ensures forall j | 0 <= j < i :: r[j] == s[j]
    ensures forall j | i < j < |r| :: r[j] == s[j - 1]
  {
    s[..i] + [x] + s[i..]
  }

  /** `splice(k, 1)` with `k` in range is `RemoveAt`. */
  lemma SpliceOneIsRemoveAt<T>(s: seq<T>, k: int)
    requires 0 <= k < |s|
    ensures SpliceOne(s, k) == RemoveAt(s, k)
  {
  }

  /** Removing the element at `i` takes exactly that element out of the multiset. */
  lemma RemoveAtMultiset<T>(s: seq<T>, i: nat)
    requires i < |s|
    ensures multiset(s) == multiset(RemoveAt(s, i)) + multiset{s[i]}
  {
    assert s == s[..i] + [s[i]] + s[i + 1..];
  }

  lemma RemoveInsert<T>(s: seq<T>, i: nat, x: T)
    requires i <= |s|
    ensures RemoveAt(InsertAt(s, i, x), i) == s
  {
    var r := RemoveAt(InsertAt(s, i, x), i);
    assert forall j | 0 <= j < |s| :: r[j] == s[j];
  }

  lemma InsertRemove<T>(s: seq<T>, i: nat)
    requires i < |s|
    ensures InsertAt(RemoveAt(s, i), i, s[i]) == s
  {
    var r := InsertAt(RemoveAt(s, i), i, s[i]);
    assert forall j | 0 <= j < |s| :: r[j] == s[j];
  }

  /** Removing one element and inserting it elsewhere keeps the multiset of elements. */
  lemma RemoveInsertPermutes<T>(s: seq<T>, i: nat, j: nat)
    requires i < |s| && j < |s|
    ensures multiset(InsertAt(RemoveAt(s, i), j, s[i])) == multiset(s)
  {
    var u := RemoveAt(s, i);
    assert s == s[..i] + [s[i]] + s[i + 1..];
    assert u == s[..i] + s[i + 1..];
    assert multiset(u) + multiset{s[i]} == multiset(s);
    assert InsertAt(u, j, s[i]) == u[..j] + [s[i]] + u[j..];
    assert u == u[..j] + u[j..];
  }
}
