/** The stats inspector's bounded buffer: a collection that keeps at most
    `maxCount` elements by dropping the oldest one when an append overflows. */
module CappedCollection {

  /** What `removeExtraElements` leaves of `s`: the first element goes when
      the count is above the cap, otherwise nothing changes. Defined only where
      Swift's `removeFirst` would not trap. */
  function RemovedExtra<T>(s: seq<T>, maxCount: int): (r: seq<T>)
    requires |s| > maxCount ==> s != []
    ensures |s| > maxCount ==> r == s[1..]
    ensures |s| <= maxCount ==> r == s
    ensures |s| - 1 <= |r| <= |s|
  {
    if |s| > maxCount then s[1..] else s
  }

  /** What `append(x)` leaves of `s` under the cap `maxCount`. */
  function Appended<T>(s: seq<T>, maxCount: int, x: T): (r: seq<T>)
    ensures r != [] ==> r[|r| - 1] == x
    ensures r == [] <==> s == [] && maxCount < 1
    ensures |s| < maxCount ==> r == s + [x]
    ensures |s| >= maxCount && s != [] ==> r == s[1..] + [x]
    ensures |s| <= maxCount ==> |r| <= maxCount
    ensures |r| == |s| || |r| == |s| + 1
  {
    RemovedExtra(s + [x], maxCount)
  }

  /** Appending the elements of `xs` one by one. */
  function AppendedAll<T>(s: seq<T>, maxCount: int, xs: seq<T>): seq<T>
    decreases |xs|
  {
    if xs == [] then s else AppendedAll(Appended(s, maxCount, xs[0]), maxCount, xs[1..])
  }

  /** The newest `maxCount` elements of `all` (all of them when there are fewer). */
  function Newest<T>(all: seq<T>, maxCount: nat): (r: seq<T>)
    ensures |r| == if |all| > maxCount then maxCount else |all|
  {
    if |all| > maxCount then all[|all| - maxCount..] else all
  }

  lemma NewestOfNewest<T>(a: seq<T>, b: seq<T>, maxCount: nat)
    ensures Newest(Newest(a, maxCount) + b, maxCount) == Newest(a + b, maxCount)
  {
    if |a| > maxCount {
      var k := |a| - maxCount;
      assert Newest(a, maxCount) + b == (a + b)[k..];
    }
  }

  /** The bounded-buffer invariant: starting within the cap, any run of
      appends keeps exactly the newest `maxCount` elements of everything
      appended so far (all of them while fewer than `maxCount` exist). */
  lemma {:induction false} AppendedAllKeepsNewest<T>(s: seq<T>, maxCount: nat, xs: seq<T>)
    requires |s| <= maxCount
    ensures AppendedAll(s, maxCount, xs) == Newest(s + xs, maxCount)
    decreases |xs|
  {
    if xs == [] {
      assert s + xs == s;
    } else {
      var s' := Appended(s, maxCount, xs[0]);
      assert s' == Newest(s + [xs[0]], maxCount);
      AppendedAllKeepsNewest(s', maxCount, xs[1..]);
      NewestOfNewest(s + [xs[0]], xs[1..], maxCount);
      assert s + [xs[0]] + xs[1..] == s + xs;
    }
  }

  /** `CappedCollection<T>`: its `elements` array and its `maxCount`, both
      mutable as in the Swift struct. */
  class CappedCollection<T> {
    var elements: seq<T>
    var maxCount: int

    /** `init(elements:maxCount:)`: takes both as given, without trimming. */
    constructor (elements: seq<T>, maxCount: int)
      ensures this.elements == elements && this.maxCount == maxCount
    {
      this.elements := elements;
      this.maxCount := maxCount;
    }

    /** `init(maxCount:)`, the initializer with `elements` left at its
        default: the collection starts empty. */
    constructor Empty(maxCount: int)
      ensures elements == [] && this.maxCount == maxCount
    {
      this.elements := [];
      this.maxCount := maxCount;
    }

    /** `init(arrayLiteral:)`: the cap is the literal's length, so the new
        collection is exactly full. */
    constructor FromArrayLiteral(elements: seq<T>)
      ensures this.elements == elements && maxCount == |elements|
    {
      this.elements := elements;
      this.maxCount := |elements|;
    }

    function StartIndex(): (i: int)
      reads this
      ensures i == 0
    {
      0
    }

    function EndIndex(): (i: int)
      reads this
      ensures i == |elements|
    {
      |elements|
    }

    /** `subscript(index:)`: traps outside `startIndex..<endIndex`. */
    function At(index: int): (e: T)
      reads this
      requires StartIndex() <= index < EndIndex()
      ensures e == elements[index]
    {
      elements[index]
    }

    function IndexAfter(i: int): (j: int)
      ensures j == i + 1
    {
      i + 1
    }

    method Append(x: T)
      modifies this
      ensures elements == Appended(old(elements), old(maxCount), x)
      ensures maxCount == old(maxCount)
    {
      elements := elements + [x];
      RemoveExtraElements();
    }

    method RemoveExtraElements()
      requires |elements| > maxCount ==> elements != []
      modifies this
      ensures elements == RemovedExtra(old(elements), old(maxCount))
      ensures maxCount == old(maxCount)
    {
      if |elements| <= maxCount {
        return;
      }
      elements := elements[1..];
    }
  }
}
