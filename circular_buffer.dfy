/** The bounded byte queue `CircularBuffer<uint8_t, s>`, backed by a double-ended queue. */
module CircularBuffer {
  import opened Bytes

  /** The contents after `push(x)`: the capacity test is `maxSize < size`, so the oldest
      element is evicted only when the queue already holds more than `maxSize` elements.
      The queue then ends with `x` and never grows past `maxSize + 1` elements. */
  function Pushed(s: seq<byte>, x: byte, maxSize: nat): (r: seq<byte>)
    ensures |r| > 0 && r[|r| - 1] == x
    ensures |s| <= maxSize + 1 ==> |r| <= maxSize + 1
  {
    if maxSize < |s| then s[1..] + [x] else s + [x]
  }

  /** Push keeps the newest elements in order: below the limit `x` is appended, beyond it
      the oldest element is dropped as well. */
  lemma PushedKeepsNewest(s: seq<byte>, x: byte, maxSize: nat)
    ensures var r := Pushed(s, x, maxSize);
      && (|s| <= maxSize ==> r == s + [x] && |r| == |s| + 1)
      && (maxSize < |s| ==> r == (s + [x])[1..] && |r| == |s|)
  {
  }

  /** From a queue within the bound, any sequence of pushes leaves at most `maxSize + 1`
      elements. */
  lemma {:induction false} PushAllBounded(s: seq<byte>, xs: seq<byte>, maxSize: nat)
    requires |s| <= maxSize + 1
    ensures |PushAll(s, xs, maxSize)| <= maxSize + 1
    decreases |xs|
  {
    if xs != [] {
      PushAllBounded(Pushed(s, xs[0], maxSize), xs[1..], maxSize);
    }
  }

  function PushAll(s: seq<byte>, xs: seq<byte>, maxSize: nat): seq<byte>
    decreases |xs|
  {
    if xs == [] then s else PushAll(Pushed(s, xs[0], maxSize), xs[1..], maxSize)
  }

  class ByteQueue {
    /** The deque's elements, front first. */
    var items: seq<byte>
    /** The template parameter `s`. */
    const maxSize: nat

    constructor (s: nat)
      ensures items == [] && maxSize == s
    {
      items := [];
      maxSize := s;
    }

    method Size() returns (n: nat)
      ensures n == |items|
    {
      n := |items|;
    }

    /** Writes the elements, in order, to the front of `arr` and returns how many there are. */
    method CopyToArray(arr: array<byte>) returns (n: nat)
      requires arr.Length >= |items|
      modifies arr
      ensures n == |items|
      ensures arr[..n] == items
      ensures arr[n..] == old(arr[n..])
    {
      var offset := 0;
      while offset < |items|
        invariant 0 <= offset <= |items|
        invariant arr[..offset] == items[..offset]
        invariant arr[|items|..] == old(arr[|items|..])
      {
        arr[offset] := items[offset];
        offset := offset + 1;
      }
      n := |items|;
    }

    /** Appends `x`; answers false when the front had to be evicted first. */
    method Push(x: byte) returns (ok: bool)
      modifies this
      ensures ok <==> |old(items)| <= maxSize
      ensures items == Pushed(old(items), x, maxSize)
    {
      if maxSize < |items| {
        items := items[1..];
        items := items + [x];
        return false;
      }
      items := items + [x];
      return true;
    }

    method Last() returns (x: byte)
      requires items != []
      ensures x == items[|items| - 1]
    {
      x := items[|items| - 1];
    }

    method First() returns (x: byte)
      requires items != []
      ensures x == items[0]
    {
      x := items[0];
    }

    /** `operator[]`: element `index`, or 0 without any change when out of range. */
    method Get(index: nat) returns (x: byte)
      ensures index < |items| ==> x == items[index]
      ensures index >= |items| ==> x == 0
    {
      if index >= |items| {
        return 0;
      }
      x := items[index];
    }

    method Clear()
      modifies this
      ensures items == []
    {
      items := [];
    }

    /** Removes and returns the back element; the others keep their order. */
    method Pop() returns (x: byte)
      requires items != []
      modifies this
      ensures x == old(items)[|old(items)| - 1]
      ensures items == old(items)[..|old(items)| - 1]
      ensures old(items) == items + [x]
    {
      x := items[|items| - 1];
      items := items[..|items| - 1];
    }

    /** Prepends `x` when the queue holds at most `maxSize` elements; otherwise changes nothing. */
    method Unshift(x: byte) returns (ok: bool)
      modifies this
      ensures ok <==> |old(items)| <= maxSize
      ensures ok ==> items == [x] + old(items)
      ensures !ok ==> items == old(items)
    {
      if maxSize >= |items| {
        items := [x] + items;
        return true;
      }
      return false;
    }
  }
}
