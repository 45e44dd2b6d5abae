/**
 * The reordering step (`ordenar_recalcular_posicoes`) that the queue
 * requests run: unserved records first, priority before
 * normal with arrival order kept inside each type, numbered 1..K; served
 * records after them, untouched.
 */
module Ordering {
  import opened Clients

  /** Every priority record comes before every normal one. */
  predicate SortedByRank(s: seq<Client>)
  {
    forall i, j {:trigger Rank(s[i]), Rank(s[j])} :: 0 <= i < j < |s| ==> Rank(s[i]) <= Rank(s[j])
  }

  /**
   * What a stable sort by `Rank` promises: the result is sorted by rank and,
   * within each service type, holds the same records in the same order.
   */
  predicate IsStableSortByRank(u: seq<Client>, r: seq<Client>)
  {
    SortedByRank(r)
    && Filter(r, IsKind(Priority)) == Filter(u, IsKind(Priority))
    && Filter(r, IsKind(Normal)) == Filter(u, IsKind(Normal))
  }

  /** The priority records, then the normal ones, each in their order in `u`. */
  function ByRank(u: seq<Client>): seq<Client>
  {
    Filter(u, IsKind(Priority)) + Filter(u, IsKind(Normal))
  }

  /** `u` with the record at index i given position i + 1 (`enumerate(..., start=1)`). */
  function Numbered(u: seq<Client>): (r: seq<Client>)
    ensures |r| == |u|
    ensures forall i :: 0 <= i < |u| ==> r[i] == u[i].(position := i + 1)
  {
    seq(|u|, i requires 0 <= i < |u| => u[i].(position := i + 1))
  }

  /** The list the reordering step leaves behind. */
  function Recomputed(s: seq<Client>): seq<Client>
  {
    Numbered(ByRank(Unserved(s))) + Served(s)
  }

  /** Number of unserved records: the K of the numbering 1..K. */
  function WaitingCount(s: seq<Client>): nat
  {
    |Unserved(s)|
  }

  /** Once a served record appears, only served records follow. */
  predicate ServedLast(s: seq<Client>)
  {
    forall i, j :: 0 <= i < j < |s| && s[i].served ==> s[j].served
  }

  /** The unserved record at index i holds position i + 1. */
  predicate NumberedFromOne(s: seq<Client>)
  {
    forall i :: 0 <= i < |s| && !s[i].served ==> s[i].position == i + 1
  }

  /** Among unserved records, priority precedes normal. */
  predicate PriorityFirst(s: seq<Client>)
  {
    forall i, j {:trigger Rank(s[i]), Rank(s[j])} :: 0 <= i < j < |s| && !s[j].served ==> Rank(s[i]) <= Rank(s[j])
  }

  /** The shape the reordering step gives any list. */
  predicate Ordered(s: seq<Client>)
  {
    ServedLast(s) && NumberedFromOne(s) && PriorityFirst(s)
  }

  /** Served records hold the served position. */
  predicate ServedAtZero(s: seq<Client>)
  {
    forall i :: 0 <= i < |s| && s[i].served ==> s[i].position == ServedPosition
  }

  /**
   * The store invariant: an unserved prefix numbered 1..K with priority
   * before normal, then a served suffix at position 0.
   */
  predicate WellFormed(s: seq<Client>)
  {
    Ordered(s) && ServedAtZero(s)
  }

  /** Unserved records holding positions 1, 2, ... in list order. */
  predicate WaitingLine(w: seq<Client>)
  {
    forall i :: 0 <= i < |w| ==> !w[i].served && w[i].position == i + 1
  }

  /** Served records, all at the served position. */
  predicate ServedTail(v: seq<Client>)
  {
    forall i :: 0 <= i < |v| ==> v[i].served && v[i].position == ServedPosition
  }

  /** A list whose served records come last is its unserved prefix and its served suffix. */
  lemma {:induction false} ServedLastSplit(s: seq<Client>)
    requires ServedLast(s)
    ensures WaitingCount(s) <= |s|
    ensures Unserved(s) == s[..WaitingCount(s)] && Served(s) == s[WaitingCount(s)..]
    ensures forall i :: 0 <= i < |s| ==> (s[i].served <==> i >= WaitingCount(s))
  {
    if s != [] {
      if s[0].served {
        FilterNone(s, IsWaiting);
        FilterAll(s, IsServed);
      } else {
        ServedLastSplit(s[1..]);
        var k := WaitingCount(s[1..]);
        assert Unserved(s) == [s[0]] + s[1..][..k];
        assert s[..k + 1] == [s[0]] + s[1..][..k];
        assert Served(s) == s[1..][k..];
      }
    }
  }

  /** A list sorted by rank is its priority records followed by its normal ones. */
  lemma {:induction false} SortedSplit(x: seq<Client>)
    requires SortedByRank(x)
    ensures |Filter(x, IsKind(Priority))| <= |x|
    ensures Filter(x, IsKind(Priority)) == x[..|Filter(x, IsKind(Priority))|]
    ensures Filter(x, IsKind(Normal)) == x[|Filter(x, IsKind(Priority))|..]
  {
    if x != [] {
      if x[0].kind == Normal {
        assert forall i :: 0 <= i < |x| ==> Rank(x[0]) <= Rank(x[i]);
        FilterNone(x, IsKind(Priority));
        FilterAll(x, IsKind(Normal));
      } else {
        SortedSplit(x[1..]);
        var m := |Filter(x[1..], IsKind(Priority))|;
        assert Filter(x, IsKind(Priority)) == [x[0]] + x[1..][..m];
        assert x[..m + 1] == [x[0]] + x[1..][..m];
        assert Filter(x, IsKind(Normal)) == x[1..][m..];
      }
    }
  }

  lemma SortedIsByRank(x: seq<Client>)
    requires SortedByRank(x)
    ensures ByRank(x) == x
  {
    SortedSplit(x);
    var m := |Filter(x, IsKind(Priority))|;
    assert x == x[..m] + x[m..];
  }

  /** Priority records, then normal records: sorted by rank. */
  lemma ByRankSorted(u: seq<Client>)
    ensures SortedByRank(ByRank(u))
  {
    var p, n := Filter(u, IsKind(Priority)), Filter(u, IsKind(Normal));
    assert forall i :: 0 <= i < |ByRank(u)| ==> Rank(ByRank(u)[i]) == if i < |p| then 0 else 1;
  }

  /** Taking the records of one type out of `ByRank(u)` gives those of `u`. */
  lemma ByRankKeepsKinds(u: seq<Client>)
    ensures Filter(ByRank(u), IsKind(Priority)) == Filter(u, IsKind(Priority))
    ensures Filter(ByRank(u), IsKind(Normal)) == Filter(u, IsKind(Normal))
  {
    var p, n := Filter(u, IsKind(Priority)), Filter(u, IsKind(Normal));
    FilterTwice(u, IsKind(Priority), IsKind(Normal));
    FilterAppend(p, n, IsKind(Priority));
    FilterAppend(p, n, IsKind(Normal));
  }

  /**
   * Python's `list.sort` is stable, so sorting by the key "0 for priority, 1
   * for normal" has exactly one outcome: the priority records, then the
   * normal ones, each group in its original order.
   */
  lemma ByRankIsTheStableSort(u: seq<Client>, r: seq<Client>)
    ensures IsStableSortByRank(u, r) <==> r == ByRank(u)
  {
    if IsStableSortByRank(u, r) {
      SortedIsByRank(r);
    }
    if r == ByRank(u) {
      ByRankSorted(u);
      ByRankKeepsKinds(u);
    }
  }

  /** A stable sort by rank loses and adds nothing. */
  lemma StableSortPermutes(u: seq<Client>, r: seq<Client>)
    requires IsStableSortByRank(u, r)
    ensures multiset(r) == multiset(u)
  {
    FilterSplit(r, IsKind(Priority), IsKind(Normal));
    FilterSplit(u, IsKind(Priority), IsKind(Normal));
  }

  /** Numbering a sorted unserved list and appending served records gives an ordered list. */
  lemma NumberedOrdered(x: seq<Client>, rest: seq<Client>)
    requires forall i :: 0 <= i < |x| ==> !x[i].served
    requires SortedByRank(x)
    requires forall i :: 0 <= i < |rest| ==> rest[i].served
    ensures Ordered(Numbered(x) + rest)
    ensures ServedAtZero(rest) ==> WellFormed(Numbered(x) + rest)
  {
    var n := Numbered(x);
    var t := n + rest;
    assert forall i :: 0 <= i < |n| ==> t[i] == n[i] && Rank(t[i]) == Rank(x[i]);
    assert forall i :: |n| <= i < |t| ==> t[i] == rest[i - |n|];
    assert forall i :: 0 <= i < |t| ==> (t[i].served <==> i >= |n|);
  }

  /** The unserved part of such a list is the numbered part, the served part the rest. */
  lemma NumberedParts(x: seq<Client>, rest: seq<Client>)
    requires forall i :: 0 <= i < |x| ==> !x[i].served
    requires forall i :: 0 <= i < |rest| ==> rest[i].served
    ensures Unserved(Numbered(x) + rest) == Numbered(x)
    ensures Served(Numbered(x) + rest) == rest
  {
    var n := Numbered(x);
    FilterAppend(n, rest, IsWaiting);
    FilterAppend(n, rest, IsServed);
    FilterAll(n, IsWaiting);
    FilterNone(n, IsServed);
    FilterNone(rest, IsWaiting);
    FilterAll(rest, IsServed);
  }

  /** Unserved records followed by served records split back into the two. */
  lemma Parts(a: seq<Client>, b: seq<Client>)
    requires forall i :: 0 <= i < |a| ==> !a[i].served
    requires forall i :: 0 <= i < |b| ==> b[i].served
    ensures Unserved(a + b) == a && Served(a + b) == b
  {
    FilterAppend(a, b, IsWaiting);
    FilterAppend(a, b, IsServed);
    FilterAll(a, IsWaiting);
    FilterNone(a, IsServed);
    FilterNone(b, IsWaiting);
    FilterAll(b, IsServed);
  }

  /** A well-formed list is a waiting line sorted by rank followed by a served tail. */
  lemma WellFormedParts(s: seq<Client>)
    requires WellFormed(s)
    ensures WaitingCount(s) <= |s|
    ensures WaitingLine(s[..WaitingCount(s)]) && SortedByRank(s[..WaitingCount(s)])
    ensures ServedTail(s[WaitingCount(s)..])
    ensures Unserved(s) == s[..WaitingCount(s)] && Served(s) == s[WaitingCount(s)..]
  {
    ServedLastSplit(s);
  }

  /** ... and every such concatenation is well-formed. */
  lemma WellFormedJoin(w: seq<Client>, v: seq<Client>)
    requires WaitingLine(w) && SortedByRank(w) && ServedTail(v)
    ensures WellFormed(w + v)
    ensures Unserved(w + v) == w && Served(w + v) == v && WaitingCount(w + v) == |w|
  {
    Parts(w, v);
    var t := w + v;
    assert forall i :: 0 <= i < |w| ==> t[i] == w[i];
    assert forall i :: |w| <= i < |t| ==> t[i] == v[i - |w|];
  }

  /** Numbering a sorted list of unserved records gives a sorted waiting line. */
  lemma NumberedLine(x: seq<Client>)
    requires forall i :: 0 <= i < |x| ==> !x[i].served
    requires SortedByRank(x)
    ensures WaitingLine(Numbered(x)) && SortedByRank(Numbered(x))
  {
    assert forall i :: 0 <= i < |x| ==> Rank(Numbered(x)[i]) == Rank(x[i]);
  }

  /** Appending a record to a list sorted by rank, then sorting again, puts it last among its type. */
  lemma ByRankAppend(w: seq<Client>, e: Client)
    requires SortedByRank(w)
    ensures var m := if e.kind == Priority then |Filter(w, IsKind(Priority))| else |w|;
      m <= |w| && ByRank(w + [e]) == w[..m] + [e] + w[m..]
  {
    SortedSplit(w);
    var m := |Filter(w, IsKind(Priority))|;
    var p, n := Filter(w + [e], IsKind(Priority)), Filter(w + [e], IsKind(Normal));
    assert [e][1..] == [];
    if e.kind == Priority {
      assert p == w[..m] + [e] by {
        FilterAppend(w, [e], IsKind(Priority));
      }
      assert n == w[m..] by {
        FilterAppend(w, [e], IsKind(Normal));
      }
    } else {
      assert p == w[..m] by {
        FilterAppend(w, [e], IsKind(Priority));
      }
      assert n == w[m..] + [e] by {
        FilterAppend(w, [e], IsKind(Normal));
      }
      assert w[..m] + (w[m..] + [e]) == w[..|w|] + [e] + w[|w|..];
    }
  }

  /** Sorting unserved records by rank keeps them all, and all unserved. */
  lemma ByRankWaiting(u: seq<Client>)
    requires forall i :: 0 <= i < |u| ==> !u[i].served
    ensures |ByRank(u)| == |u|
    ensures forall i :: 0 <= i < |ByRank(u)| ==> !ByRank(u)[i].served
  {
    var x := ByRank(u);
    var p, n := Filter(u, IsKind(Priority)), Filter(u, IsKind(Normal));
    FilterCount(u, IsKind(Priority), IsKind(Normal));
    FilterFrom(u, IsKind(Priority));
    FilterFrom(u, IsKind(Normal));
    forall i | 0 <= i < |x| ensures !x[i].served {
      if i < |p| {
        assert x[i] == p[i] && p[i] in p;
      } else {
        assert x[i] == n[i - |p|] && n[i - |p|] in n;
      }
    }
  }

  /** The served records of a list whose served records sit at position 0 form a served tail. */
  lemma ServedTailOf(s: seq<Client>)
    requires ServedAtZero(s)
    ensures ServedTail(Served(s))
  {
    var rest := Served(s);
    FilterFrom(s, IsServed);
    forall i | 0 <= i < |rest| ensures rest[i].position == ServedPosition {
      assert rest[i] in s;
    }
  }

  /** Whatever the list, the reordering step leaves it ordered, keeping its served records as they were. */
  lemma RecomputedOrdered(s: seq<Client>)
    ensures Ordered(Recomputed(s))
    ensures Unserved(Recomputed(s)) == Numbered(ByRank(Unserved(s)))
    ensures Served(Recomputed(s)) == Served(s)
    ensures |Recomputed(s)| == |s|
    ensures WaitingCount(Recomputed(s)) == WaitingCount(s)
    ensures ServedAtZero(s) ==> WellFormed(Recomputed(s))
  {
    var u := Unserved(s);
    var x := ByRank(u);
    var rest := Served(s);
    ByRankSorted(u);
    ByRankWaiting(u);
    NumberedOrdered(x, rest);
    NumberedParts(x, rest);
    FilterCount(s, IsWaiting, IsServed);
    if ServedAtZero(s) {
      ServedTailOf(s);
    }
  }

  /** Within each service type, the unserved records keep their relative order. */
  lemma RecomputedStable(s: seq<Client>, k: Kind)
    ensures Erased(Filter(Unserved(Recomputed(s)), IsKind(k))) == Erased(Filter(Unserved(s), IsKind(k)))
  {
    RecomputedOrdered(s);
    var u := Unserved(s);
    var x := ByRank(u);
    calc {
      Erased(Filter(Numbered(x), IsKind(k)));
      { FilterErased(Numbered(x), IsKind(k)); }
      Filter(Erased(Numbered(x)), IsKind(k));
      { assert Erased(Numbered(x)) == Erased(x); }
      Filter(Erased(x), IsKind(k));
      { FilterErased(x, IsKind(k)); }
      Erased(Filter(x, IsKind(k)));
      { ByRankKeepsKinds(u); }
      Erased(Filter(u, IsKind(k)));
    }
  }

  /** Erasing positions commutes with concatenation. */
  lemma ErasedAppend(a: seq<Client>, b: seq<Client>)
    ensures Erased(a + b) == Erased(a) + Erased(b)
  {
  }

  /** Complementary filters split a list apart from positions, too. */
  lemma ErasedSplit(s: seq<Client>, t: Test, u: Test)
    requires Complementary(t, u)
    ensures multiset(Erased(Filter(s, t))) + multiset(Erased(Filter(s, u))) == multiset(Erased(s))
  {
    FilterErased(s, t);
    FilterErased(s, u);
    FilterSplit(Erased(s), t, u);
  }

  /** Apart from positions, the reordered list is a permutation of the original. */
  lemma RecomputedPermutes(s: seq<Client>)
    ensures multiset(Erased(Recomputed(s))) == multiset(Erased(s))
  {
    var u := Unserved(s);
    var p, n := Filter(u, IsKind(Priority)), Filter(u, IsKind(Normal));
    var x := p + n;
    assert Erased(Recomputed(s)) == Erased(p) + Erased(n) + Erased(Served(s)) by {
      assert Erased(Numbered(x)) == Erased(x);
      ErasedAppend(Numbered(x), Served(s));
      ErasedAppend(p, n);
    }
    ErasedSplit(u, IsKind(Priority), IsKind(Normal));
    ErasedSplit(s, IsWaiting, IsServed);
  }

  /** An ordered list is left exactly as it is. */
  lemma RecomputedFixpoint(s: seq<Client>)
    requires Ordered(s)
    ensures Recomputed(s) == s
  {
    ServedLastSplit(s);
    var k := WaitingCount(s);
    var u := s[..k];
    SortedIsByRank(u);
    assert Numbered(u) == u;
    assert s == s[..k] + s[k..];
  }

  /** Running the reordering step twice is the same as running it once. */
  lemma RecomputedIdempotent(s: seq<Client>)
    ensures Recomputed(Recomputed(s)) == Recomputed(s)
  {
    RecomputedOrdered(s);
    RecomputedFixpoint(Recomputed(s));
  }
}
