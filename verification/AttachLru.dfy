/** The list of attached sessions, oldest first, and what it means over whole histories. */
module AttachLru {
  import opened Model
  import opened Sequences

  function Clamp(maxAttached: nat): (cap: nat)
    ensures 1 <= cap <= 16
    ensures 1 <= maxAttached <= 16 <==> cap == maxAttached
    ensures maxAttached < 1 ==> cap == 1
    ensures maxAttached > 16 ==> cap == 16
  {
    if maxAttached < 1 then 1 else if maxAttached > 16 then 16 else maxAttached
  }

  /** `retain(|y| y != x)`. */
  function Without(l: seq<SessionId>, x: SessionId): seq<SessionId> {
    if l == [] then [] else (if l[0] == x then [] else [l[0]]) + Without(l[1..], x)
  }

  /** The list after attaching `x` under a cap. */
  function Touched(l: seq<SessionId>, x: SessionId, cap: nat): seq<SessionId> { LastN(Without(l, x) + [x], cap) }

  predicate NoDup(l: seq<SessionId>) { forall i, j :: 0 <= i < j < |l| ==> l[i] != l[j] }

  predicate Suffix(a: seq<SessionId>, b: seq<SessionId>) { |a| <= |b| && a == b[|b| - |a|..] }

  // ----- the list operations -----

  lemma {:induction false} WithoutAppend(a: seq<SessionId>, b: seq<SessionId>, x: SessionId)
    ensures Without(a + b, x) == Without(a, x) + Without(b, x)
    decreases |a|
  {
    if a == [] {
      assert a + b == b;
    } else {
      assert (a + b)[0] == a[0] && (a + b)[1..] == a[1..] + b;
      WithoutAppend(a[1..], b, x);
    }
  }

  lemma {:induction false} WithoutMembers(l: seq<SessionId>, x: SessionId, y: SessionId)
    ensures y in Without(l, x) <==> y in l && y != x
    ensures |Without(l, x)| <= |l|
    ensures x !in l ==> Without(l, x) == l
    decreases |l|
  {
    if l != [] {
      assert l == [l[0]] + l[1..];
      WithoutMembers(l[1..], x, y);
    }
  }

  lemma {:induction false} WithoutNoDup(l: seq<SessionId>, x: SessionId)
    requires NoDup(l)
    ensures NoDup(Without(l, x))
    decreases |l|
  {
    if l != [] {
      WithoutNoDup(l[1..], x);
      if l[0] != x {
        WithoutMembers(l[1..], x, l[0]);
        assert l[0] !in l[1..];
      }
    }
  }

  /** The entry goes, everybody else keeps their order. */
  lemma {:induction false} WithoutAt(l: seq<SessionId>, i: nat)
    requires NoDup(l) && i < |l|
    ensures Without(l, l[i]) == l[..i] + l[i + 1..]
    decreases i
  {
    if i == 0 {
      WithoutMembers(l[1..], l[0], l[0]);
    } else {
      assert l[1..][i - 1] == l[i];
      WithoutAt(l[1..], i - 1);
      assert l[..i] == [l[0]] + l[1..][..i - 1] && l[1..][i..] == l[i + 1..];
    }
  }

  lemma SuffixWithout(a: seq<SessionId>, b: seq<SessionId>, x: SessionId)
    requires Suffix(a, b)
    ensures Suffix(Without(a, x), Without(b, x))
  {
    var front := b[..|b| - |a|];
    assert b == front + a;
    WithoutAppend(front, a, x);
  }

  lemma SuffixTouched(a: seq<SessionId>, b: seq<SessionId>, x: SessionId, m: nat, n: nat)
    requires Suffix(a, b) && m <= n
    ensures Suffix(Touched(a, x, m), Touched(b, x, n)) && Suffix(Touched(a, x, m), Without(b, x) + [x])
  {
    SuffixWithout(a, b, x);
    var c, d := Without(a, x) + [x], Without(b, x) + [x];
    SuffixAppend(Without(a, x), Without(b, x), x);
    SuffixOfLastN(c, d, m, n);
  }

  lemma SuffixAppend(a: seq<SessionId>, b: seq<SessionId>, x: SessionId)
    requires Suffix(a, b)
    ensures Suffix(a + [x], b + [x])
  {
    assert (b + [x])[|b| - |a|..] == b[|b| - |a|..] + [x];
  }

  lemma SuffixOfLastN(c: seq<SessionId>, d: seq<SessionId>, m: nat, n: nat)
    requires Suffix(c, d) && m <= n
    ensures Suffix(LastN(c, m), LastN(d, n)) && Suffix(LastN(c, m), d)
  {
    var k := |LastN(c, m)|;
    assert LastN(c, m) == c[|c| - k..] == d[|d| - k..];
    assert LastN(d, n) == d[|d| - |LastN(d, n)|..];
    assert LastN(d, n)[|LastN(d, n)| - k..] == d[|d| - k..];
  }

  // ----- histories under a fixed cap -----

  datatype Op = Attach(sid: SessionId) | Drop(sid: SessionId)

  function After(l: seq<SessionId>, op: Op, cap: nat): seq<SessionId> {
    if op.Attach? then Touched(l, op.sid, cap) else Without(l, op.sid)
  }

  function ListOf(h: seq<Op>, cap: nat): seq<SessionId> {
    if h == [] then [] else After(ListOf(h[..|h| - 1], cap), h[|h| - 1], cap)
  }

  /** The list nobody is ever evicted from. */
  function Recency(h: seq<Op>): seq<SessionId> {
    if h == [] then [] else Renewed(Recency(h[..|h| - 1]), h[|h| - 1])
  }

  function Renewed(l: seq<SessionId>, op: Op): seq<SessionId> {
    Without(l, op.sid) + if op.Attach? then [op.sid] else []
  }

  lemma RenewedIsDistinct(l: seq<SessionId>, op: Op, cap: nat)
    requires NoDup(l)
    ensures NoDup(Renewed(l, op)) && NoDup(LastN(Renewed(l, op), cap))
  {
    var kept := Without(l, op.sid);
    WithoutNoDup(l, op.sid);
    WithoutMembers(l, op.sid, op.sid);
    if op.Attach? {
      var all := kept + [op.sid];
      forall i, j | 0 <= i < j < |all| ensures all[i] != all[j] { assert all[i] in kept; }
    } else {
      assert kept + [] == kept;
    }
  }

  lemma {:induction false} ListIsDistinct(h: seq<Op>, cap: nat)
    ensures NoDup(ListOf(h, cap)) && NoDup(Recency(h)) && |ListOf(h, cap)| <= cap
  {
    if h != [] {
      var front, op := h[..|h| - 1], h[|h| - 1];
      ListIsDistinct(front, cap);
      var l := ListOf(front, cap);
      RenewedIsDistinct(l, op, cap);
      RenewedIsDistinct(Recency(front), op, cap);
      WithoutMembers(l, op.sid, op.sid);
      assert op.Drop? ==> Renewed(l, op) == Without(l, op.sid);
    }
  }

  /** Raising the cap never costs a pane: the smaller list is always a suffix of the larger. */
  lemma {:induction false} Inclusion(h: seq<Op>, small: nat, large: nat)
    requires small <= large
    ensures Suffix(ListOf(h, small), ListOf(h, large))
  {
    if h != [] {
      var front := h[..|h| - 1];
      var x := h[|h| - 1].sid;
      Inclusion(front, small, large);
      SuffixWithout(ListOf(front, small), ListOf(front, large), x);
      SuffixTouched(ListOf(front, small), ListOf(front, large), x, small, large);
    }
  }

  lemma {:induction false} ListIsRecent(h: seq<Op>, cap: nat)
    ensures Suffix(ListOf(h, cap), Recency(h))
  {
    if h != [] {
      var front := h[..|h| - 1];
      var x := h[|h| - 1].sid;
      ListIsRecent(front, cap);
      SuffixWithout(ListOf(front, cap), Recency(front), x);
      SuffixTouched(ListOf(front, cap), Recency(front), x, cap, cap);
      assert Without(Recency(front), x) + [] == Without(Recency(front), x);
    }
  }

  // ----- who is in the list -----

  /** How many elements follow `x`. */
  function Behind(l: seq<SessionId>, x: SessionId): nat
    requires x in l
  {
    if l[0] == x then |l| - 1 else Behind(l[1..], x)
  }

  lemma {:induction false} BehindPlace(l: seq<SessionId>, i: nat)
    requires NoDup(l) && i < |l|
    ensures Behind(l, l[i]) == |l| - 1 - i
    decreases |l|
  {
    if i > 0 {
      assert l[1..][i - 1] == l[i];
      BehindPlace(l[1..], i - 1);
    }
  }

  lemma SuffixMembers(a: seq<SessionId>, b: seq<SessionId>, x: SessionId)
    requires NoDup(b) && Suffix(a, b) && x in b
    ensures x in a <==> Behind(b, x) < |a|
    ensures x in a ==> Behind(a, x) == Behind(b, x)
  {
    var d := |b| - |a|;
    var i :| 0 <= i < |b| && b[i] == x;
    BehindPlace(b, i);
    if i >= d {
      assert a[i - d] == x;
      assert NoDup(a);
      BehindPlace(a, i - d);
    } else {
      NotInSuffix(a, b, i);
    }
  }

  lemma NotInSuffix(a: seq<SessionId>, b: seq<SessionId>, i: nat)
    requires NoDup(b) && Suffix(a, b) && i < |b| - |a|
    ensures b[i] !in a
  {
    forall j | 0 <= j < |a| ensures a[j] != b[i] { assert a[j] == b[|b| - |a| + j]; }
  }

  /** The largest number of more recent sessions `x` has had since its last attach. */
  function Depth(h: seq<Op>, x: SessionId): nat
    requires x in Recency(h)
  {
    var front := h[..|h| - 1];
    if h[|h| - 1] == Attach(x) then 0 else
    WithoutMembers(Recency(front), h[|h| - 1].sid, x);
    var before, now := Depth(front, x), Behind(Recency(h), x);
    if before < now then now else before
  }

  /** One operation on the list and on the unbounded one, seen from a session it does not name. */
  lemma MembershipStep(l: seq<SessionId>, u: seq<SessionId>, op: Op, cap: nat, x: SessionId)
    requires cap > 0 && op.sid != x && x in u && NoDup(u) && Suffix(l, u) && |l| <= cap
    ensures x in Renewed(u, op)
    ensures x in After(l, op, cap) <==> x in l && Behind(Renewed(u, op), x) < cap
  {
    var a, b := Without(l, op.sid), Without(u, op.sid);
    SuffixWithout(l, u, op.sid);
    WithoutMembers(l, op.sid, x);
    WithoutMembers(u, op.sid, x);
    WithoutMembers(u, op.sid, op.sid);
    WithoutNoDup(u, op.sid);
    if op.Attach? {
      PushedMembers(a, b, op.sid, cap, x);
    } else {
      assert b + [] == b;
      SuffixMembers(a, b, x);
    }
  }

  lemma PushedMembers(a: seq<SessionId>, b: seq<SessionId>, y: SessionId, cap: nat, x: SessionId)
    requires Suffix(a, b) && NoDup(b) && y !in b && x in b && x != y
    ensures x in LastN(a + [y], cap) <==> x in a && Behind(b + [y], x) < cap
  {
    var c, d := a + [y], b + [y];
    assert Suffix(c, d) && NoDup(d);
    SuffixMembers(c, d, x);
    var e := LastN(c, cap);
    assert Suffix(e, d);
    SuffixMembers(e, d, x);
    assert x in c <==> x in a;
  }

  lemma NamedMembership(l: seq<SessionId>, u: seq<SessionId>, op: Op, cap: nat)
    requires cap > 0
    ensures op.sid in After(l, op, cap) <==> op.Attach?
    ensures op.sid in Renewed(u, op) <==> op.Attach?
  {
    WithoutMembers(l, op.sid, op.sid);
    WithoutMembers(u, op.sid, op.sid);
    assert op.Attach? ==> After(l, op, cap)[|After(l, op, cap)| - 1] == op.sid;
  }

  lemma AbsentStaysAbsent(l: seq<SessionId>, u: seq<SessionId>, op: Op, cap: nat, x: SessionId)
    requires op.sid != x && x !in l && x !in u
    ensures x !in After(l, op, cap) && x !in Renewed(u, op)
  {
    WithoutMembers(l, op.sid, x);
    WithoutMembers(u, op.sid, x);
  }

  /** A session is in the list exactly when it was attached and not dropped since, and at no time
      since then were `cap` or more sessions more recent than it. */
  lemma {:induction false} Membership(h: seq<Op>, cap: nat, x: SessionId)
    requires cap > 0
    ensures x in ListOf(h, cap) <==> x in Recency(h) && Depth(h, x) < cap
  {
    if h != [] {
      var front, op := h[..|h| - 1], h[|h| - 1];
      var l, u := ListOf(front, cap), Recency(front);
      if op.sid == x {
        NamedMembership(l, u, op, cap);
      } else {
        Membership(front, cap, x);
        if x in u {
          ListIsDistinct(front, cap);
          ListIsRecent(front, cap);
          MembershipStep(l, u, op, cap, x);
        } else {
          AbsentStaysAbsent(l, u, op, cap, x);
        }
      }
    }
  }
}
