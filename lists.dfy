// Array methods the application uses on its lists (filter, findIndex, some,
// slice and splice with JavaScript's index conventions), as functions on
// sequences.

module Lists {

  /** `s.filter(p)`. */
  function Filter<T(!new)>(s: seq<T>, p: T -> bool): (r: seq<T>)
    ensures |r| <= |s|
    ensures forall x :: x in r <==> x in s && p(x)
    decreases |s|
  {
    if |s| == 0 then []
    else if p(s[0]) then [s[0]] + Filter(s[1..], p)
    else Filter(s[1..], p)
  }

  /** Filtering with a predicate that holds everywhere changes nothing. */
  lemma {:induction false} FilterAll<T(!new)>(s: seq<T>, p: T -> bool)
    requires forall x :: x in s ==> p(x)
    ensures Filter(s, p) == s
    decreases |s|
  {
    if |s| > 0 {
      FilterAll(s[1..], p);
      assert s == [s[0]] + s[1..];
    }
  }

  /** Filtering with a predicate that holds nowhere leaves nothing. */
  lemma {:induction false} FilterNone<T(!new)>(s: seq<T>, p: T -> bool)
    requires forall x :: x in s ==> !p(x)
    ensures Filter(s, p) == []
    decreases |s|
  {
    if |s| > 0 {
      assert s[0] in s;
      FilterNone(s[1..], p);
    }
  }

  /** Filtering keeps every element `p` accepts as often as it occurs, and drops the others. */
  lemma {:induction false} FilterCounts<T(!new)>(s: seq<T>, p: T -> bool)
    ensures forall x :: multiset(Filter(s, p))[x] == if p(x) then multiset(s)[x] else 0
    decreases |s|
  {
    if |s| > 0 {
      FilterCounts(s[1..], p);
      assert s == [s[0]] + s[1..];
    }
  }

  /** Filtering a list is filtering its two halves, wherever it is cut: the order is kept. */
  lemma FilterSplits<T(!new)>(s: seq<T>, p: T -> bool)
    ensures forall k :: 0 <= k <= |s| ==> Filter(s, p) == Filter(s[..k], p) + Filter(s[k..], p)
  {
    forall k | 0 <= k <= |s|
      ensures Filter(s, p) == Filter(s[..k], p) + Filter(s[k..], p)
    {
      assert s == s[..k] + s[k..];
      FilterAppend(s[..k], s[k..], p);
    }
  }

  /** Filter distributes over concatenation. */
  lemma {:induction false} FilterAppend<T(!new)>(a: seq<T>, b: seq<T>, p: T -> bool)
    ensures Filter(a + b, p) == Filter(a, p) + Filter(b, p)
    decreases |a|
  {
    if |a| > 0 {
      assert (a + b)[1..] == a[1..] + b;
      FilterAppend(a[1..], b, p);
    } else {
      assert a + b == b;
    }
  }

  /** `s.findIndex(p)`: the first position where `p` holds, or -1. */
  function FindIndex<T>(s: seq<T>, p: T -> bool): (i: int)
    ensures -1 <= i < |s|
    ensures i >= 0 ==> p(s[i]) && forall j :: 0 <= j < i ==> !p(s[j])
    ensures i == -1 <==> forall j :: 0 <= j < |s| ==> !p(s[j])
    decreases |s|
  {
    if |s| == 0 then -1
    else if p(s[0]) then 0
    else
      var k := FindIndex(s[1..], p);
      assert forall j :: 1 <= j < |s| ==> s[j] == s[1..][j - 1];
      if k < 0 then -1 else k + 1
  }

  /** `s.some(p)`. */
  predicate Any<T>(s: seq<T>, p: T -> bool) {
    FindIndex(s, p) >= 0
  }

  /** The position a JavaScript `slice` or `splice` argument denotes: negative counts from the end. */
  function JsIndex(len: nat, x: int): (k: nat)
    ensures k <= len
  {
    if x < 0 then (if len + x < 0 then 0 else len + x) else if x > len then len else x
  }

  /** `s.slice(start)`. */
  function SliceFrom<T>(s: seq<T>, start: int): seq<T> {
    s[JsIndex(|s|, start)..]
  }

  /** `s.slice(0, end)`. */
  function SliceTo<T>(s: seq<T>, end: int): seq<T> {
    s[..JsIndex(|s|, end)]
  }

  /** `s.splice(start, 0, x)` applied to a copy of `s`. */
  function InsertAt<T>(s: seq<T>, start: int, x: T): (r: seq<T>)
    ensures |r| == |s| + 1
  {
    var k := JsIndex(|s|, start);
    s[..k] + [x] + s[k..]
  }

  /** `s.filter((_, i) => i !== index)`. */
  function RemoveAt<T>(s: seq<T>, index: int): (r: seq<T>)
    ensures 0 <= index < |s| ==> |r| == |s| - 1
    ensures !(0 <= index < |s|) ==> r == s
  {
    if 0 <= index < |s| then s[..index] + s[index + 1..] else s
  }

  /** Removing one position keeps every other entry, in order. */
  lemma RemoveAtShifts<T>(s: seq<T>, index: int, j: int)
    requires 0 <= index < |s| && 0 <= j < |s| && j != index
    ensures RemoveAt(s, index)[if j < index then j else j - 1] == s[j]
  {
  }

  /** `s.slice(0, end)` followed by `s.slice(end)` is `s`, for every `end`. */
  lemma SliceToFrom<T>(s: seq<T>, x: int)
    ensures SliceTo(s, x) + SliceFrom(s, x) == s
  {
  }
}
