/** Sequence facts shared by the ring, the attach list and the line protocol. */
module Sequences {
  /** The last `n` elements, or all of them. */
  function LastN<T>(s: seq<T>, n: nat): seq<T> { if |s| <= n then s else s[|s| - n..] }

  lemma LastNOfAppend<T>(s: seq<T>, d: seq<T>, n: nat)
    ensures LastN(LastN(s, n) + d, n) == LastN(s + d, n)
  {
    if |s| > n {
      assert s + d == s[..|s| - n] + (LastN(s, n) + d);
    }
  }

  function Joined<T>(parts: seq<seq<T>>): seq<T> {
    if parts == [] then [] else Joined(parts[..|parts| - 1]) + parts[|parts| - 1]
  }

  lemma {:induction false} JoinedFromFront<T>(first: seq<T>, rest: seq<seq<T>>)
    ensures Joined([first] + rest) == first + Joined(rest)
    decreases |rest|
  {
    var all := [first] + rest;
    if rest == [] {
      assert all[..0] == [] && Joined(all) == Joined(all[..0]) + first;
    } else {
      var n := |rest| - 1;
      assert all[..|all| - 1] == [first] + rest[..n] && all[|all| - 1] == rest[n];
      JoinedFromFront(first, rest[..n]);
      Associates(first, Joined(rest[..n]), rest[n]);
    }
  }

  lemma Associates<T>(a: seq<T>, b: seq<T>, c: seq<T>)
    ensures a + b + c == a + (b + c)
  {}
}
