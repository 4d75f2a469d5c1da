/**
 * The two list updaters the alert queue uses: `[...prevMarkers, marker]`
 * (App.jsx:166-169) and `prevMarkers.slice(1)` (App.jsx:179).
 */
module AlertList {

  /**
   * `Array.prototype.slice(start)` with no end argument: a negative start counts
   * from the end, and the start is clamped to the bounds of the list.
   */
  function Slice<T>(s: seq<T>, start: int): (r: seq<T>)
    ensures |r| <= |s| && r == s[|s| - |r|..]
    ensures 0 <= start ==> |r| == if start <= |s| then |s| - start else 0
    ensures start < 0 ==> |r| == if -start <= |s| then -start else |s|
  {
    var k := if start < 0 then (if |s| + start < 0 then 0 else |s| + start)
             else (if start < |s| then start else |s|);
    s[k..]
  }

  /** `[...s, x]`: the old list, in its order, and `x` at the tail. */
  function Append<T>(s: seq<T>, x: T): (r: seq<T>)
    ensures |r| == |s| + 1 && r[..|s|] == s && r[|s|] == x
  {
    s + [x]
  }

  /** `s.slice(1)`: everything but the head; the empty list stays empty. */
  function DropHead<T>(s: seq<T>): (r: seq<T>)
    ensures s == [] ==> r == []
    ensures s != [] ==> [s[0]] + r == s
  {
    Slice(s, 1)
  }

  /** Appending and then dropping the head of a non-empty list commute: the queue is FIFO. */
  lemma DropHeadAppend<T>(s: seq<T>, x: T)
    requires s != []
    ensures DropHead(Append(s, x)) == Append(DropHead(s), x)
  {
  }
}
