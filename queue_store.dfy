/**
 * The in-memory queue of the service (`fila`) and the requests that read
 * and rewrite it. Each request is a method over the one shared list; its
 * contract ties the new list to the pure description in `Ordering` or
 * `Handlers` and states what the request promises about the queue.
 */
module QueueStore {
  import opened Clients
  import opened Ordering
  import opened Handlers

  /**
   * Python's `list.sort(key=lambda c: 0 if c.tipo == "P" else 1)`: a stable
   * sort by rank. A key with two values makes it a two-bucket pass.
   */
  method SortByRank(u: seq<Client>) returns (r: seq<Client>)
    ensures IsStableSortByRank(u, r)
  {
    var first, second := [], [];
    var i := 0;
    while i < |u|
      invariant 0 <= i <= |u|
      invariant first == Filter(u[..i], IsKind(Priority))
      invariant second == Filter(u[..i], IsKind(Normal))
    {
      assert u[..i + 1] == u[..i] + [u[i]];
      FilterAppend(u[..i], [u[i]], IsKind(Priority));
      FilterAppend(u[..i], [u[i]], IsKind(Normal));
      if u[i].kind == Priority {
        first := first + [u[i]];
      } else {
        second := second + [u[i]];
      }
      i := i + 1;
    }
    assert u[..i] == u;
    r := first + second;
    ByRankIsTheStableSort(u, r);
  }

  class Queue {
    /** The records, unserved first (numbered 1..K), then served. */
    var clients: seq<Client>

    ghost predicate Valid()
      reads this
    {
      WellFormed(clients)
    }

    /** The queue starts empty. */
    constructor ()
      ensures Valid() && clients == []
    {
      clients := [];
    }

    /**
     * `ordenar_recalcular_posicoes`: split off the served records, stable-sort
     * the unserved ones by rank, number them 1..K, and put them back in front
     * of the served ones.
     */
    method Recompute()
      modifies this
      ensures clients == Recomputed(old(clients))
      ensures Ordered(clients)
      ensures ServedAtZero(old(clients)) ==> Valid()
      ensures old(Valid()) ==> clients == old(clients)
    {
      var waiting := Unserved(clients);
      var done := Served(clients);
      var line := SortByRank(waiting);
      ByRankIsTheStableSort(waiting, line);
      ghost var sorted := line;
      var i := 0;
      while i < |line|
        invariant 0 <= i <= |line| == |sorted|
        invariant forall j :: 0 <= j < i ==> line[j] == sorted[j].(position := j + 1)
        invariant forall j :: i <= j < |line| ==> line[j] == sorted[j]
      {
        line := line[i := line[i].(position := i + 1)];
        i := i + 1;
      }
      assert line == Numbered(sorted);
      RecomputedOrdered(clients);
      if Ordered(clients) {
        RecomputedFixpoint(clients);
      }
      clients := line + done;
    }

    /** `encontrar_por_posicao`: index of the first record holding position `p`. */
    method FindByPosition(p: int) returns (r: Option<nat>)
      ensures r.Some? ==> r.value < |clients| && clients[r.value].position == p
      ensures r.Some? ==> forall j :: 0 <= j < r.value ==> clients[j].position != p
      ensures r.None? ==> forall j :: 0 <= j < |clients| ==> clients[j].position != p
      ensures r == FindIndex(clients, p)
    {
      var i := 0;
      while i < |clients|
        invariant 0 <= i <= |clients|
        invariant forall j :: 0 <= j < i ==> clients[j].position != p
      {
        if clients[i].position == p {
          return Some(i);
        }
        i := i + 1;
      }
      return None;
    }

    /** GET /fila: the unserved records in queue order. */
    method List() returns (r: seq<Client>)
      requires Valid()
      modifies this
      ensures Valid() && clients == old(clients)
      ensures r == Unserved(clients)
      ensures |r| <= |clients| && r == clients[..|r|]
      ensures WaitingLine(r) && SortedByRank(r)
    {
      Recompute();
      r := Unserved(clients);
      WellFormedParts(clients);
    }

    /** GET /fila/{id}: the unserved record at position `id`, or NotFound. */
    method Get(id: int) returns (r: Outcome<Client>)
      requires Valid()
      modifies this
      ensures Valid() && clients == old(clients)
      ensures r == LookupOutcome(old(clients), id)
      ensures r.Ok? <==> 1 <= id <= WaitingCount(clients)
      ensures r.Ok? ==> 1 <= id <= |clients| && r.value == clients[id - 1]
      ensures r.NotFound? ==> r.position == id
    {
      Recompute();
      var i := FindByPosition(id);
      if i.None? || clients[i.value].served {
        r := NotFound(id);
      } else {
        r := Ok(clients[i.value]);
      }
      LookupByPosition(old(clients), id);
    }

    /**
     * POST /fila: append a fresh record and reorder. The record returned is
     * the one the new client became: last among the unserved records of its
     * type.
     */
    method Add(name: string, kind: Kind, now: Timestamp) returns (c: Client)
      requires Valid()
      requires 1 <= |name| <= 20
      modifies this
      ensures Valid()
      ensures clients == Enqueued(old(clients), name, kind, now)
      ensures |clients| == |old(clients)| + 1
      ensures WaitingCount(clients) == WaitingCount(old(clients)) + 1
      ensures var m := LandingIndex(old(clients), kind);
        && m < |clients| && c == clients[m]
        && c == NewClient(name, kind, now).(position := m + 1)
    {
      var before := clients;
      clients := clients + [NewClient(name, kind, now)];
      Recompute();
      EnqueueLands(before, name, kind, now);
      // The appended record now stands at this index (EnqueueLands).
      c := clients[LandingIndex(before, kind)];
    }

    /**
     * PUT /fila: serve the record at position 1, if any, and return the
     * unserved records that remain.
     */
    method Advance() returns (r: seq<Client>)
      requires Valid()
      modifies this
      ensures Valid()
      ensures clients == Advanced(old(clients))
      ensures r == Unserved(clients)
      ensures |clients| == |old(clients)|
      ensures WaitingCount(old(clients)) == 0 ==> clients == old(clients)
      ensures WaitingCount(old(clients)) > 0 ==>
        && WaitingCount(clients) == WaitingCount(old(clients)) - 1
        && clients[WaitingCount(clients)] == Serve(old(clients)[0])
        && var p, n := Filter(Unserved(old(clients)), IsKind(Priority)), Filter(Unserved(old(clients)), IsKind(Normal));
          old(clients)[0] == if p != [] then p[0] else n[0]
    {
      ghost var before := clients;
      Recompute();
      var i := FindByPosition(1);
      if i.Some? {
        clients := clients[i.value := Serve(clients[i.value])];
      }
      Recompute();
      r := Unserved(clients);
      AdvanceServesHead(before);
      if WaitingCount(before) > 0 {
        HeadOfLine(before);
      }
    }

    /** DELETE /fila/{id}: remove the unserved record at position `id`, or NotFound. */
    method Delete(id: int) returns (r: Outcome<()>)
      requires Valid()
      modifies this
      ensures Valid()
      ensures r.NotFound? <==> !(1 <= id <= WaitingCount(old(clients)))
      ensures r.NotFound? ==> r.position == id && clients == old(clients)
      ensures r.Ok? ==> DeleteOutcome(old(clients), id) == Ok(clients)
      ensures r.Ok? ==> |clients| == |old(clients)| - 1 && WaitingCount(clients) == WaitingCount(old(clients)) - 1
    {
      ghost var before := clients;
      DeleteByPosition(before, id);
      Recompute();
      var i := FindByPosition(id);
      if i.None? || clients[i.value].served {
        r := NotFound(id);
      } else {
        clients := RemoveFirst(clients, clients[i.value]);
        Recompute();
        r := Ok(());
      }
    }
  }
}
