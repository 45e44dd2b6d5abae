/**
 * What the queue requests do to the list of records, with the HTTP layer
 * taken away. Look-up and removal by position return an `Outcome`; adding
 * and advancing return the new list. Look-up reorders first; adding appends,
 * then reorders; advancing reorders before and after serving; removal
 * reorders first and again after a removal.
 */
module Handlers {
  import opened Clients
  import opened Ordering

  /** A request either succeeds or names the position that holds no unserved record. */
  datatype Outcome<T> = Ok(value: T) | NotFound(position: int)

  /** Index of the first record holding position `p` (`encontrar_por_posicao`). */
  function FindIndex(s: seq<Client>, p: int): (r: Option<nat>)
    ensures r.Some? ==> r.value < |s| && s[r.value].position == p
    ensures r.Some? ==> forall j :: 0 <= j < r.value ==> s[j].position != p
    ensures r.None? ==> forall j :: 0 <= j < |s| ==> s[j].position != p
  {
    if s == [] then None
    else if s[0].position == p then Some(0)
    else match FindIndex(s[1..], p)
      case None => None
      case Some(i) => Some(i + 1)
  }

  /** `list.remove`: drop the first record equal to `x`. */
  function RemoveFirst(s: seq<Client>, x: Client): (r: seq<Client>)
    requires x in s
    ensures |r| == |s| - 1
  {
    if s[0] == x then s[1..] else [s[0]] + RemoveFirst(s[1..], x)
  }

  /** `list.remove` takes out one copy of `x` and nothing else. */
  lemma {:induction false} RemoveFirstPermutes(s: seq<Client>, x: Client)
    requires x in s
    ensures multiset(RemoveFirst(s, x)) == multiset(s) - multiset{x}
  {
    assert s == [s[0]] + s[1..];
    if s[0] != x {
      RemoveFirstPermutes(s[1..], x);
    }
  }

  /** A fresh record: placeholder position, not served. */
  function NewClient(name: string, kind: Kind, now: Timestamp): Client
  {
    Client(Placeholder, name, now, kind, false)
  }

  /** What the advance request writes into the record it serves. */
  function Serve(c: Client): Client
  {
    c.(position := ServedPosition, served := true)
  }

  /** Look up by position (GET by id): the unserved record there, or NotFound. */
  function LookupOutcome(s: seq<Client>, p: int): Outcome<Client>
  {
    var t := Recomputed(s);
    match FindIndex(t, p)
    case None => NotFound(p)
    case Some(i) => if t[i].served then NotFound(p) else Ok(t[i])
  }

  /** The list after adding a record (POST). */
  function Enqueued(s: seq<Client>, name: string, kind: Kind, now: Timestamp): seq<Client>
  {
    Recomputed(s + [NewClient(name, kind, now)])
  }

  /** The list after advancing the queue (PUT). */
  function Advanced(s: seq<Client>): seq<Client>
  {
    var t := Recomputed(s);
    match FindIndex(t, 1)
    case None => Recomputed(t)
    case Some(i) => Recomputed(t[i := Serve(t[i])])
  }

  /** The list after removing the record at position `p` (DELETE by id), or NotFound. */
  function DeleteOutcome(s: seq<Client>, p: int): Outcome<seq<Client>>
  {
    var t := Recomputed(s);
    match FindIndex(t, p)
    case None => NotFound(p)
    case Some(i) => if t[i].served then NotFound(p) else Ok(Recomputed(RemoveFirst(t, t[i])))
  }

  /** Where `Enqueued` puts the new record: after the unserved records of its type that come first. */
  function LandingIndex(s: seq<Client>, kind: Kind): nat
  {
    if kind == Priority then |Filter(Unserved(s), IsKind(Priority))| else WaitingCount(s)
  }

  /** Removing the first record holding a value removes it at its index. */
  lemma {:induction false} RemoveFirstAt(s: seq<Client>, i: nat)
    requires i < |s|
    requires forall j :: 0 <= j < i ==> s[j] != s[i]
    ensures RemoveFirst(s, s[i]) == s[..i] + s[i + 1..]
  {
    var x := s[i];
    if i == 0 {
      assert RemoveFirst(s, x) == s[1..];
    } else {
      var r := s[1..];
      assert r[i - 1] == x;
      forall j | 0 <= j < i - 1
        ensures r[j] != r[i - 1]
      {
        assert r[j] == s[j + 1];
      }
      RemoveFirstAt(r, i - 1);
      calc {
        RemoveFirst(s, x);
        { assert s[0] != x; }
        [s[0]] + RemoveFirst(r, x);
        [s[0]] + (r[..i - 1] + r[i..]);
        { assert s[..i] == [s[0]] + r[..i - 1]; assert s[i + 1..] == r[i..]; }
        s[..i] + s[i + 1..];
      }
    }
  }

  /** A list whose unserved part is sorted by rank is reordered by numbering that part. */
  lemma RecomputedFromParts(x: seq<Client>, a: seq<Client>, rest: seq<Client>)
    requires Unserved(x) == a && Served(x) == rest
    requires SortedByRank(a)
    ensures Recomputed(x) == Numbered(a) + rest
  {
    SortedIsByRank(a);
  }

  /**
   * In an ordered list, position `p` holds an unserved record exactly when
   * 1 <= p <= K, and then it is the record at index p - 1. Position 0 may
   * match a served record; that match is not a hit.
   */
  lemma LookupInOrdered(s: seq<Client>, p: int)
    requires Ordered(s)
    ensures (FindIndex(s, p).Some? && !s[FindIndex(s, p).value].served) <==> 1 <= p <= WaitingCount(s)
    ensures 1 <= p <= WaitingCount(s) ==> FindIndex(s, p) == Some(p - 1)
  {
    ServedLastSplit(s);
    var k := WaitingCount(s);
    if 1 <= p <= k {
      assert s[p - 1].position == p;
      assert forall j :: 0 <= j < p - 1 ==> s[j].position == j + 1;
    }
  }

  /** Looking up position `p` finds an unserved record exactly when 1 <= p <= K. */
  lemma LookupByPosition(s: seq<Client>, p: int)
    ensures LookupOutcome(s, p).Ok? <==> 1 <= p <= WaitingCount(s)
    ensures LookupOutcome(s, p).NotFound? ==> LookupOutcome(s, p).position == p
    ensures LookupOutcome(s, p).Ok? ==>
      var c := LookupOutcome(s, p).value;
      0 <= p - 1 < |Recomputed(s)| && c == Recomputed(s)[p - 1] && c.position == p && !c.served
  {
    RecomputedOrdered(s);
    LookupInOrdered(Recomputed(s), p);
  }

  /** The records of a list with `e` inserted at index m. */
  lemma InsertedAt(w: seq<Client>, e: Client, m: nat)
    requires m <= |w|
    ensures var y := w[..m] + [e] + w[m..];
      |y| == |w| + 1 && forall j :: 0 <= j < |y| ==> y[j] == if j < m then w[j] else if j == m then e else w[j - 1]
  {
  }

  /** The records of a list with index q taken out. */
  lemma RemovedAt(w: seq<Client>, q: nat)
    requires q < |w|
    ensures var y := w[..q] + w[q + 1..];
      |y| == |w| - 1 && forall j :: 0 <= j < |y| ==> y[j] == if j < q then w[j] else w[j + 1]
  {
  }

  /** Numbering a waiting line with one record inserted at index m. */
  lemma NumberedInsert(w: seq<Client>, e: Client, m: nat)
    requires WaitingLine(w) && m <= |w|
    ensures var n := Numbered(w[..m] + [e] + w[m..]);
      && n[..m] == w[..m]
      && n[m] == e.(position := m + 1)
      && forall j :: m < j <= |w| ==> n[j] == w[j - 1].(position := j + 1)
  {
    InsertedAt(w, e, m);
  }

  /** Numbering a waiting line with the record at index q taken out. */
  lemma NumberedRemove(w: seq<Client>, q: nat)
    requires WaitingLine(w) && q < |w|
    ensures var n := Numbered(w[..q] + w[q + 1..]);
      && n[..q] == w[..q]
      && forall j :: q <= j < |w| - 1 ==> n[j] == w[j + 1].(position := j + 1)
  {
    RemovedAt(w, q);
  }

  /** Reordering a well-formed list with a fresh record appended. */
  lemma EnqueueReorders(w: seq<Client>, v: seq<Client>, e: Client)
    requires WaitingLine(w) && SortedByRank(w) && ServedTail(v) && !e.served
    ensures var m := if e.kind == Priority then |Filter(w, IsKind(Priority))| else |w|;
      var t := Recomputed(w + v + [e]);
      && m <= |w|
      && t == Numbered(w[..m] + [e] + w[m..]) + v
      && WellFormed(t) && WaitingCount(t) == |w| + 1
  {
    var m := if e.kind == Priority then |Filter(w, IsKind(Priority))| else |w|;
    var y := w[..m] + [e] + w[m..];
    AppendedParts(w, v, e);
    ByRankAppend(w, e);
    InsertedWaiting(w, e, m);
    ByRankSorted(w + [e]);
    NumberedLine(y);
    WellFormedJoin(Numbered(y), v);
  }

  /** Appending an unserved record to a waiting line and a served tail. */
  lemma AppendedParts(w: seq<Client>, v: seq<Client>, e: Client)
    requires WaitingLine(w) && SortedByRank(w) && ServedTail(v) && !e.served
    ensures Unserved(w + v + [e]) == w + [e] && Served(w + v + [e]) == v
  {
    WellFormedJoin(w, v);
    assert [e][1..] == [];
    FilterAppend(w + v, [e], IsWaiting);
    FilterAppend(w + v, [e], IsServed);
  }

  /** Inserting an unserved record into a waiting line leaves only unserved records. */
  lemma InsertedWaiting(w: seq<Client>, e: Client, m: nat)
    requires WaitingLine(w) && !e.served && m <= |w|
    ensures forall j :: 0 <= j < |w| + 1 ==> !(w[..m] + [e] + w[m..])[j].served
  {
    InsertedAt(w, e, m);
  }

  /** Reordering a well-formed list whose head has just been served. */
  lemma AdvanceReorders(w: seq<Client>, v: seq<Client>)
    requires WaitingLine(w) && SortedByRank(w) && ServedTail(v) && |w| > 0
    ensures var t := Recomputed([Serve(w[0])] + w[1..] + v);
      t == Numbered(w[1..]) + ([Serve(w[0])] + v) && WellFormed(t) && WaitingCount(t) == |w| - 1
  {
    var head := Serve(w[0]);
    var a, b := w[1..], [head] + v;
    var x := [head] + a + v;
    assert x == [head] + (a + v);
    assert Unserved(x) == a && Served(x) == b by {
      Parts(a, v);
      FilterAppend([head], a + v, IsWaiting);
      FilterAppend([head], a + v, IsServed);
    }
    assert SortedByRank(a);
    RecomputedFromParts(x, a, b);
    NumberedLine(a);
    WellFormedJoin(Numbered(a), b);
  }

  /** Reordering a well-formed list with the unserved record at index q taken out. */
  lemma RemoveReorders(w: seq<Client>, v: seq<Client>, q: nat)
    requires WaitingLine(w) && SortedByRank(w) && ServedTail(v) && q < |w|
    ensures var t := Recomputed(w[..q] + w[q + 1..] + v);
      t == Numbered(w[..q] + w[q + 1..]) + v && WellFormed(t) && WaitingCount(t) == |w| - 1
  {
    var a := w[..q] + w[q + 1..];
    Parts(a, v);
    assert SortedByRank(a) by {
      forall i, j | 0 <= i < j < |a| ensures Rank(a[i]) <= Rank(a[j]) {
        assert a[i] == w[if i < q then i else i + 1];
        assert a[j] == w[if j < q then j else j + 1];
      }
    }
    RecomputedFromParts(a + v, a, v);
    NumberedLine(a);
    WellFormedJoin(Numbered(a), v);
  }

  /**
   * Adding a record to a well-formed list puts it last among the unserved
   * records of its type, at position LandingIndex + 1, moves the records
   * behind it one place back, leaves the rest as they were, and keeps the
   * list well-formed.
   */
  lemma EnqueueLands(s: seq<Client>, name: string, kind: Kind, now: Timestamp)
    requires WellFormed(s)
    ensures var t, k, m := Enqueued(s, name, kind, now), WaitingCount(s), LandingIndex(s, kind);
      && m <= k <= |s|
      && |t| == |s| + 1
      && WellFormed(t)
      && WaitingCount(t) == k + 1
      && t[..m] == s[..m]
      && t[m] == NewClient(name, kind, now).(position := m + 1)
      && (forall j :: m < j <= k ==> t[j] == s[j - 1].(position := j + 1))
      && t[k + 1..] == s[k..]
  {
    WellFormedParts(s);
    var k := WaitingCount(s);
    var w, v := s[..k], s[k..];
    assert s == w + v;
    var e := NewClient(name, kind, now);
    EnqueueReorders(w, v, e);
    var m := LandingIndex(s, kind);
    NumberedInsert(w, e, m);
  }

  /**
   * Advancing a well-formed queue with K > 0 serves its head, which is the
   * first unserved priority record if there is one and otherwise the first
   * unserved normal record; the others move up one place. With K = 0 it
   * changes nothing.
   */
  lemma AdvanceServesHead(s: seq<Client>)
    requires WellFormed(s)
    ensures |Advanced(s)| == |s| && WellFormed(Advanced(s))
    ensures WaitingCount(s) == 0 ==> Advanced(s) == s
    ensures WaitingCount(s) > 0 ==>
      && WaitingCount(Advanced(s)) == WaitingCount(s) - 1
      && Advanced(s) == Numbered(s[1..WaitingCount(s)]) + [Serve(s[0])] + s[WaitingCount(s)..]
  {
    AdvancedAt(s);
    if WaitingCount(s) > 0 {
      ServeHeadReorders(s);
    }
  }

  /** Serving the head of a well-formed queue with K > 0, then reordering. */
  lemma ServeHeadReorders(s: seq<Client>)
    requires WellFormed(s) && WaitingCount(s) > 0
    ensures var k := WaitingCount(s);
      && k <= |s|
      && var t := Numbered(s[1..k]) + [Serve(s[0])] + s[k..];
      && Recomputed(s[0 := Serve(s[0])]) == t
      && WellFormed(t) && |t| == |s| && WaitingCount(t) == k - 1
  {
    WellFormedParts(s);
    var k := WaitingCount(s);
    var w, v := s[..k], s[k..];
    var t := Numbered(w[1..]) + ([Serve(w[0])] + v);
    assert Recomputed(s[0 := Serve(s[0])]) == t && WellFormed(t) && |t| == |s| && WaitingCount(t) == k - 1 by {
      assert s[0 := Serve(s[0])] == [Serve(w[0])] + w[1..] + v;
      AdvanceReorders(w, v);
    }
    assert w[0] == s[0] && w[1..] == s[1..k];
    assert t == Numbered(s[1..k]) + [Serve(s[0])] + s[k..];
  }

  /**
   * The head of a well-formed queue with K > 0 is its first unserved
   * priority record if there is one, and otherwise its first unserved
   * normal record.
   */
  lemma HeadOfLine(s: seq<Client>)
    requires WellFormed(s) && WaitingCount(s) > 0
    ensures var p, n := Filter(Unserved(s), IsKind(Priority)), Filter(Unserved(s), IsKind(Normal));
      s[0] == if p != [] then p[0] else n[0]
  {
    WellFormedParts(s);
    var w := s[..WaitingCount(s)];
    SortedSplit(w);
    assert w[0] == s[0];
  }

  /** On a well-formed list, advancing serves index 0 when K > 0 and changes nothing otherwise. */
  lemma AdvancedAt(s: seq<Client>)
    requires WellFormed(s)
    ensures WaitingCount(s) == 0 ==> Advanced(s) == s
    ensures WaitingCount(s) > 0 ==> Advanced(s) == Recomputed(s[0 := Serve(s[0])])
  {
    RecomputedFixpoint(s);
    LookupInOrdered(s, 1);
    if WaitingCount(s) == 0 {
      ServedLastSplit(s);
      assert FindIndex(s, 1) == None;
    }
  }

  /** On a well-formed list, removal hits the record at index p - 1 when 1 <= p <= K. */
  lemma DeleteOutcomeAt(s: seq<Client>, p: int)
    requires WellFormed(s) && 1 <= p <= WaitingCount(s)
    ensures p <= |s| && DeleteOutcome(s, p) == Ok(Recomputed(s[..p - 1] + s[p..]))
  {
    RecomputedFixpoint(s);
    LookupInOrdered(s, p);
    ServedLastSplit(s);
    RemoveFirstAt(s, p - 1);
  }

  /** Removing an unserved position from a well-formed list. */
  lemma DeleteFound(s: seq<Client>, p: int)
    requires WellFormed(s) && 1 <= p <= WaitingCount(s)
    ensures WaitingCount(s) <= |s|
    ensures DeleteOutcome(s, p) == Ok(Numbered(s[..p - 1] + s[p..WaitingCount(s)]) + s[WaitingCount(s)..])
  {
    var k := WaitingCount(s);
    var q := p - 1;
    DeleteOutcomeAt(s, p);
    WellFormedParts(s);
    var w, v := s[..k], s[k..];
    var a := s[..q] + s[p..k];
    assert s[..q] + s[p..] == a + v by {
      assert s[p..] == s[p..k] + s[k..];
    }
    assert Recomputed(a + v) == Numbered(a) + v by {
      RemoveReorders(w, v, q);
      assert a == w[..q] + w[q + 1..];
    }
  }

  /**
   * Removing position `p` from a well-formed list fails exactly when p is not
   * in 1..K. Otherwise the record at index p - 1 goes, the unserved records
   * behind it move up one place, and the list stays well-formed.
   */
  lemma DeleteByPosition(s: seq<Client>, p: int)
    requires WellFormed(s)
    ensures DeleteOutcome(s, p).NotFound? <==> !(1 <= p <= WaitingCount(s))
    ensures DeleteOutcome(s, p).NotFound? ==> DeleteOutcome(s, p).position == p
    ensures DeleteOutcome(s, p).Ok? ==>
      var t, k := DeleteOutcome(s, p).value, WaitingCount(s);
      && |t| == |s| - 1
      && WellFormed(t)
      && WaitingCount(t) == k - 1
      && t[..p - 1] == s[..p - 1]
      && (forall j :: p - 1 <= j < k - 1 ==> t[j] == s[j + 1].(position := j + 1))
      && t[k - 1..] == s[k..]
  {
    var k := WaitingCount(s);
    if 1 <= p <= k {
      var t := Numbered(s[..p - 1] + s[p..k]) + s[k..];
      assert
        && |t| == |s| - 1
        && WellFormed(t)
        && WaitingCount(t) == k - 1
        && t[..p - 1] == s[..p - 1]
        && (forall j :: p - 1 <= j < k - 1 ==> t[j] == s[j + 1].(position := j + 1))
        && t[k - 1..] == s[k..]
      by {
        WellFormedParts(s);
        var w, v, q := s[..k], s[k..], p - 1;
        assert s[..q] + s[p..k] == w[..q] + w[q + 1..];
        RemoveShape(w, v, q);
      }
      DeleteFound(s, p);
    } else {
      DeleteMissed(s, p);
    }
  }

  /** The list left by removing index q of a waiting line, in terms of that line. */
  lemma RemoveShape(w: seq<Client>, v: seq<Client>, q: nat)
    requires WaitingLine(w) && SortedByRank(w) && ServedTail(v) && q < |w|
    ensures var t := Numbered(w[..q] + w[q + 1..]) + v;
      && |t| == |w| + |v| - 1
      && WellFormed(t)
      && WaitingCount(t) == |w| - 1
      && t[..q] == w[..q]
      && (forall j :: q <= j < |w| - 1 ==> t[j] == w[j + 1].(position := j + 1))
      && t[|w| - 1..] == v
  {
    RemoveReorders(w, v, q);
    NumberedRemove(w, q);
  }

  /** On an ordered list, removal of a position outside 1..K finds nothing to remove. */
  lemma DeleteMissed(s: seq<Client>, p: int)
    requires Ordered(s) && !(1 <= p <= WaitingCount(s))
    ensures DeleteOutcome(s, p) == NotFound(p)
  {
    RecomputedFixpoint(s);
    LookupInOrdered(s, p);
  }
}
