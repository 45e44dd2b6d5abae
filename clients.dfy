/**
 * The client record of the service queue and the filters over lists of
 * records that the reordering step is built from.
 */
module Clients {

  /** Service type: "P" (priority) or "N" (normal). */
  datatype Kind = Priority | Normal

  /** Arrival time. It is stored with the record and never compared. */
  type Timestamp = int

  /**
   * One queue record (`Cliente`): its position, name, arrival time,
   * service type and whether it has been served.
   */
  datatype Client = Client(position: int, name: string, arrival: Timestamp, kind: Kind, served: bool)

  datatype Option<T> = None | Some(value: T)

  /** Position given to a record before it is first numbered. */
  const Placeholder: int := 999999

  /** Position written into a record when it is served. */
  const ServedPosition: int := 0

  /** The sort key of the reordering step: 0 for priority, 1 for normal. */
  function Rank(c: Client): nat
  {
    if c.kind == Priority then 0 else 1
  }

  /** The tests the reordering step partitions a list by. */
  datatype Test = IsWaiting | IsServed | IsKind(kind: Kind)

  predicate Passes(c: Client, t: Test)
  {
    match t
    case IsWaiting => !c.served
    case IsServed => c.served
    case IsKind(k) => c.kind == k
  }

  /** `t` and `u` split every record between them. */
  predicate Complementary(t: Test, u: Test)
  {
    (t == IsWaiting && u == IsServed) || (t == IsKind(Priority) && u == IsKind(Normal))
  }

  /** The records of `s` that pass `t`, in their order in `s` (a list comprehension). */
  function Filter(s: seq<Client>, t: Test): (r: seq<Client>)
    ensures |r| <= |s|
    ensures forall i :: 0 <= i < |r| ==> Passes(r[i], t)
  {
    if s == [] then [] else (if Passes(s[0], t) then [s[0]] else []) + Filter(s[1..], t)
  }

  /** `[c for c in fila if not c.atendido]` */
  function Unserved(s: seq<Client>): seq<Client>
  {
    Filter(s, IsWaiting)
  }

  /** `[c for c in fila if c.atendido]` */
  function Served(s: seq<Client>): seq<Client>
  {
    Filter(s, IsServed)
  }

  /** The list with every position erased: what a record is, apart from where it stands. */
  function Erased(s: seq<Client>): seq<Client>
  {
    seq(|s|, i requires 0 <= i < |s| => s[i].(position := 0))
  }

  lemma {:induction false} FilterAppend(a: seq<Client>, b: seq<Client>, t: Test)
    ensures Filter(a + b, t) == Filter(a, t) + Filter(b, t)
  {
    if a == [] {
      assert a + b == b;
    } else {
      assert (a + b)[1..] == a[1..] + b;
      FilterAppend(a[1..], b, t);
    }
  }

  /** Every record the filter keeps comes from the list. */
  lemma {:induction false} FilterFrom(s: seq<Client>, t: Test)
    ensures forall c :: c in Filter(s, t) ==> c in s
  {
    if s != [] {
      FilterFrom(s[1..], t);
    }
  }

  lemma {:induction false} FilterAll(s: seq<Client>, t: Test)
    requires forall i :: 0 <= i < |s| ==> Passes(s[i], t)
    ensures Filter(s, t) == s
  {
    if s != [] {
      FilterAll(s[1..], t);
    }
  }

  lemma {:induction false} FilterNone(s: seq<Client>, t: Test)
    requires forall i :: 0 <= i < |s| ==> !Passes(s[i], t)
    ensures Filter(s, t) == []
  {
    if s != [] {
      FilterNone(s[1..], t);
    }
  }

  /** Filtering twice by the same test, or by complementary tests. */
  lemma FilterTwice(s: seq<Client>, t: Test, u: Test)
    requires Complementary(t, u)
    ensures Filter(Filter(s, t), t) == Filter(s, t)
    ensures Filter(Filter(s, t), u) == []
    ensures Filter(Filter(s, u), u) == Filter(s, u)
    ensures Filter(Filter(s, u), t) == []
  {
    var f, g := Filter(s, t), Filter(s, u);
    FilterAll(f, t);
    FilterNone(f, u);
    FilterAll(g, u);
    FilterNone(g, t);
  }

  /** One record in front: it goes to exactly one of two complementary filters. */
  lemma SplitStep(x: Client, rest: seq<Client>, t: Test, u: Test)
    requires Complementary(t, u)
    ensures multiset(Filter([x] + rest, t)) + multiset(Filter([x] + rest, u))
         == multiset{x} + (multiset(Filter(rest, t)) + multiset(Filter(rest, u)))
  {
    var s := [x] + rest;
    assert s[0] == x && s[1..] == rest;
    if Passes(x, t) {
      assert Filter(s, t) == [x] + Filter(rest, t);
      assert Filter(s, u) == Filter(rest, u);
    } else {
      assert Filter(s, t) == Filter(rest, t);
      assert Filter(s, u) == [x] + Filter(rest, u);
    }
  }

  /** Complementary filters split a list: a two-way partition is a permutation. */
  lemma {:induction false} FilterSplit(s: seq<Client>, t: Test, u: Test)
    requires Complementary(t, u)
    ensures multiset(Filter(s, t)) + multiset(Filter(s, u)) == multiset(s)
  {
    if s != [] {
      var x, rest := s[0], s[1..];
      FilterSplit(rest, t, u);
      assert s == [x] + rest;
      SplitStep(x, rest, t, u);
    }
  }

  lemma FilterCount(s: seq<Client>, t: Test, u: Test)
    requires Complementary(t, u)
    ensures |Filter(s, t)| + |Filter(s, u)| == |s|
  {
    FilterSplit(s, t, u);
    assert |multiset(Filter(s, t)) + multiset(Filter(s, u))| == |multiset(s)|;
  }

  /** None of the tests looks at the position. */
  lemma {:induction false} FilterErased(s: seq<Client>, t: Test)
    ensures Erased(Filter(s, t)) == Filter(Erased(s), t)
  {
    if s != [] {
      FilterErased(s[1..], t);
      assert Erased(s)[1..] == Erased(s[1..]);
      assert Erased(s)[0] == s[0].(position := 0);
      var head := if Passes(s[0], t) then [s[0]] else [];
      assert Erased(head + Filter(s[1..], t)) == Erased(head) + Erased(Filter(s[1..], t));
    }
  }
}
