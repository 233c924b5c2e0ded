/** The scrollback ring: a capped byte deque kept in a circular array. */
module Ring {
  import opened Sequences

  newtype byte = x: int | 0 <= x < 256

  lemma OneMore<T>(base: seq<T>, data: seq<T>, i: nat)
    requires i < |data|
    ensures base + data[..i] + [data[i]] == base + data[..i + 1]
  {}

  lemma TailOfLong<T>(s: seq<T>, d: seq<T>, n: nat)
    requires |d| >= n
    ensures LastN(s + d, n) == d[|d| - n..]
  {}

  lemma TailOfShort<T>(s: seq<T>, d: seq<T>, n: nat, k: nat)
    requires |d| < n && k <= |s| && k == if |s| + |d| <= n then 0 else |s| + |d| - n
    ensures LastN(s + d, n) == s[k..] + d
  {}

  const MIN_CAPACITY: nat := 4096

  class RingBuffer {
    const cap: nat
    const buf: array<byte>
    var head: nat
    var len: nat
    ghost var stream: seq<byte>  // everything pushed since creation

    /** The deque's contents in order, across the wrap-around. */
    ghost function Contents(): (s: seq<byte>)
      reads this, buf
      requires head <= buf.Length && len <= buf.Length
      ensures |s| == len
    {
      if head + len <= buf.Length then buf[head..head + len] else buf[head..] + buf[..head + len - buf.Length]
    }

    ghost predicate Shape()
      reads this
    {
      MIN_CAPACITY <= cap == buf.Length && head < cap && len <= cap
    }

    ghost predicate Valid()
      reads this, buf
    {
      Shape() && Contents() == LastN(stream, cap)
    }

    constructor (requested: nat)
      ensures Valid() && fresh(buf)
      ensures cap == (if requested < MIN_CAPACITY then MIN_CAPACITY else requested)
      ensures stream == [] && Contents() == []
    {
      var c := if requested < MIN_CAPACITY then MIN_CAPACITY else requested;
      cap := c;
      buf := new byte[c](_ => 0);
      head, len, stream := 0, 0, [];
    }

    method PopFront()
      requires Shape() && len > 0
      modifies this`head, this`len
      ensures Shape() && Contents() == old(Contents())[1..]
    {
      head, len := if head + 1 == cap then 0 else head + 1, len - 1;
    }

    method PushBack(x: byte)
      requires Shape() && len < cap
      modifies this`len, buf
      ensures Shape() && Contents() == old(Contents()) + [x]
    {
      var at := if head + len < cap then head + len else head + len - cap;
      buf[at] := x;
      len := len + 1;
    }

    method Extend(data: seq<byte>)
      requires Shape() && len + |data| <= cap
      modifies this`len, buf
      ensures Shape() && Contents() == old(Contents()) + data
    {
      ghost var base := Contents();
      for i := 0 to |data|
        invariant Shape() && len == |base| + i
        invariant Contents() == base + data[..i]
      {
        PushBack(data[i]);
        OneMore(base, data, i);
      }
      assert data[..|data|] == data;
    }

    /** Evicts the `n` oldest bytes. */
    method DropOldest(n: nat)
      requires Shape() && n <= len
      modifies this`head, this`len
      ensures Shape() && len == old(len) - n && Contents() == old(Contents())[n..]
    {
      ghost var before := Contents();
      for i := 0 to n
        invariant Shape() && len == |before| - i && Contents() == before[i..]
      {
        PopFront();
      }
    }

    /** Replaces the contents. */
    method Refill(data: seq<byte>)
      requires Shape() && |data| <= cap
      modifies this`len, buf
      ensures Shape() && Contents() == data
    {
      len := 0;
      Extend(data);
      assert [] + data == data;
    }

    /** Makes room and appends. */
    method Slide(data: seq<byte>)
      requires Shape() && |data| < cap
      modifies this`head, this`len, buf
      ensures Shape() && Contents() == LastN(old(Contents()) + data, cap)
    {
      var overflow := if len + |data| <= cap then 0 else len + |data| - cap;
      TailOfShort(Contents(), data, cap, overflow);
      DropOldest(overflow);
      Extend(data);
    }

    /** Data longer than the ring replaces it; shorter data makes room for itself first. */
    method Write(data: seq<byte>)
      requires Shape()
      modifies this`head, this`len, buf
      ensures Shape() && Contents() == LastN(old(Contents()) + data, cap)
    {
      if |data| >= cap {
        TailOfLong(Contents(), data, cap);
        Refill(data[|data| - cap..]);
      } else {
        Slide(data);
      }
    }

    /** Appends bytes, evicting the oldest past the capacity. */
    method Push(data: seq<byte>)
      requires Valid()
      modifies this, buf
      ensures Valid() && stream == old(stream) + data
      ensures Contents() == LastN(old(Contents()) + data, cap)
    {
      LastNOfAppend(stream, data, cap);
      Write(data);
      stream := stream + data;
    }

    /** The current contents, for replay on attach. */
    method Snapshot() returns (s: seq<byte>)
      requires Valid()
      ensures s == Contents() == LastN(stream, cap)
    {
      s := [];
      for i := 0 to len
        invariant s == Contents()[..i]
      {
        s := s + [if head + i < cap then buf[head + i] else buf[head + i - cap]];
      }
    }
  }

  // ----- whole histories -----

  /** What the ring holds after the pushes, by the contract of `Push`. */
  function AfterPushes(chunks: seq<seq<byte>>, cap: nat): seq<byte> {
    if chunks == [] then [] else LastN(AfterPushes(chunks[..|chunks| - 1], cap) + chunks[|chunks| - 1], cap)
  }

  /** Whatever the chunking, the ring is the tail of the concatenated stream. */
  lemma {:induction false} RingIsSuffix(chunks: seq<seq<byte>>, cap: nat)
    ensures AfterPushes(chunks, cap) == LastN(Joined(chunks), cap)
    ensures |AfterPushes(chunks, cap)| <= cap
  {
    if chunks != [] {
      var front := chunks[..|chunks| - 1];
      RingIsSuffix(front, cap);
      LastNOfAppend(Joined(front), chunks[|chunks| - 1], cap);
    }
  }
}
