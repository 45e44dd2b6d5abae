# Service queue (fila de atendimento) in Dafny

This project models the in-memory service queue behind a small HTTP API. The
queue is one shared list `fila` of client records. Each record has:

- a position (`posicao`)
- a name
- an arrival time
- a service type: `P` for priority, `N` for normal
- a served flag (`atendido`)

The requests run the reordering step `ordenar_recalcular_posicoes`:

- the unserved records are stable-sorted so that priority comes before normal;
- they are renumbered 1..K;
- they are put back in front of the served records.

The requests are:

- list the queue;
- look up the record at a position;
- add a client;
- advance the queue (serve position 1);
- remove the record at a position.

GET requests reorder first. POST appends, then reorders. PUT reorders before and after serving. DELETE reorders first, and again after a removal.

Layout:

- `clients.dfy` (module `Clients`): the record, the service type, and the list filters (the list comprehensions) that the reordering step is built from.
- `ordering.dfy` (module `Ordering`): the reordering step as a function `Recomputed`, and the store invariant `WellFormed`. The invariant is an unserved prefix numbered 1..K, with priority before normal, followed by a served suffix at position 0. This file also holds the lemmas about the reordering: it is the unique stable sort, it produces an ordered list, it is stable, it permutes, it is idempotent.
- `handlers.dfy` (module `Handlers`): the look-up by position and each request that changes the list, as a function on the list. Look-up and removal by position return an `Outcome` (`Ok` or `NotFound`); adding and advancing return the new list. The lemmas state what each request does to a well-formed list. Listing the queue needs no function of its own: it is `Unserved` of the reordered list.
- `queue_store.dfy` (module `QueueStore`): the class `Queue`, whose field `clients` is the shared list. Its methods do what the source does, step by step: the sort, the renumbering loop, the linear scan, the serve (a one-index update of the sequence) and the removal. Each method is proved against the functions in `Ordering` and `Handlers`, and each one preserves `Valid()`.

Records are values. `Erased` blanks the position, so two records that differ only in position become equal; the permutation and stability lemmas compare records that way. The arrival time is a plain integer passed in by the caller. Nothing orders or sorts by it, but record equality (as in `list.remove`) includes it.

## Model

| member | source | states |
|---|---|---|
| Clients.Unserved | src/main.py:41 | the unserved records of the list, in list order; see Clients.Filter, Clients.FilterSplit and Ordering.ServedLastSplit |
| Clients.Served | src/main.py:42 | the served records of the list, in list order; see Clients.Filter, Clients.FilterSplit and Ordering.ServedLastSplit |
| Clients.Filter | src/main.py:41-42 | the comprehension keeps only records passing the test, and is no longer than the list |
| Clients.FilterSplit | src/main.py:41-42 | the unserved/served split and the priority/normal split lose and add no record (the two parts together are a permutation of the list) |
| Clients.FilterCount | src/main.py:41-42 | the two parts of a split add up to the length of the list |
| Clients.FilterErased | src/main.py:41-42 | neither split looks at the position |
| Ordering.ByRank | src/main.py:44 | the sorted unserved records: priority first, then normal, each in list order; see Ordering.ByRankIsTheStableSort, which proves this is the one result of the stable sort |
| Ordering.Numbered | src/main.py:45-46 | the record at index i gets position i + 1 and keeps every other field; see Ordering.NumberedLine |
| Ordering.NumberedLine | src/main.py:45-46 | numbering a sorted list of unserved records gives a waiting line holding positions 1, 2, ... that is still sorted by type |
| Ordering.Recomputed | src/main.py:36-49 | the list the reordering step leaves; see Ordering.RecomputedOrdered, Ordering.RecomputedStable, Ordering.RecomputedPermutes and Ordering.RecomputedIdempotent |
| Ordering.SortedSplit | src/main.py:44 | a list sorted by the key is its priority records followed by its normal records |
| Ordering.ByRankIsTheStableSort | src/main.py:44 | a list is a stable sort of `u` by the key (0 for `P`, 1 for `N`) if and only if it equals the priority records of `u` followed by its normal records |
| Ordering.StableSortPermutes | src/main.py:44 | a stable sort by the key is a permutation of its input |
| Ordering.ByRankAppend | src/main.py:44 | re-sorting a sorted list with one record appended puts that record after the last record of its type |
| Ordering.ServedLastSplit | src/main.py:41-42 | when served records come last, the unserved part is the prefix of length K and the served part the suffix |
| Ordering.WellFormedParts | src/main.py:41-49 | a list satisfying the store invariant is a waiting line numbered 1..K and sorted by type, then a served tail at position 0 |
| Ordering.WellFormedJoin | src/main.py:49 | every such concatenation satisfies the store invariant |
| Ordering.RecomputedOrdered | src/main.py:36-49 | after reordering, any list has its unserved records first, numbered 1..K in list order, with priority before normal. The served records are kept in order, the length is kept, and K is kept. Served records at position 0 give the store invariant |
| Ordering.RecomputedStable | src/main.py:39 | within each service type, the unserved records keep their relative order |
| Ordering.RecomputedPermutes | src/main.py:41-49 | apart from positions, the reordered list is a permutation of the original |
| Ordering.RecomputedFixpoint | src/main.py:36-49 | an ordered list is left exactly as it is |
| Ordering.RecomputedIdempotent | src/main.py:36-49 | reordering twice gives the same list and positions as reordering once |
| Handlers.FindIndex | src/main.py:51-55 | the scan returns the first index holding the position, or nothing when no record holds it |
| Handlers.NewClient | src/main.py:90-96 | the fresh record: placeholder position 999999, not served; Handlers.EnqueueLands states where it lands and what position it then holds |
| Handlers.Serve | src/main.py:107-108 | the served record: position 0, served flag set, other fields kept; Handlers.AdvanceServesHead states where it ends up |
| Handlers.LookupOutcome | src/main.py:76-85 | GET by id on the reordered list; see Handlers.LookupByPosition |
| Handlers.Enqueued | src/main.py:88-99 | POST: append the fresh record, then reorder; see Handlers.EnqueueLands |
| Handlers.Advanced | src/main.py:102-110 | PUT: reorder, serve the record at position 1 if any, reorder again; see Handlers.AdvanceServesHead |
| Handlers.DeleteOutcome | src/main.py:113-124 | DELETE by id: reorder, find the position, fail when missing or served, else remove and reorder; see Handlers.DeleteByPosition |
| Handlers.RemoveFirst | src/main.py:122 | `list.remove` makes the list one shorter |
| Handlers.RemoveFirstPermutes | src/main.py:122 | `list.remove` takes out exactly one copy of the record and nothing else |
| Handlers.RemoveFirstAt | src/main.py:122 | removing the first record equal to the one at index i removes index i |
| Handlers.LookupInOrdered | src/main.py:79-80 | in an ordered list the scan finds an unserved record exactly for positions 1..K, at index p - 1. A served record found at position 0 is not a hit |
| Handlers.LookupByPosition | src/main.py:76-85 | for any list, looking up `id` gives NotFound exactly when `id` is not in 1..K. Otherwise it gives the unserved record at index id - 1 of the reordered list, holding position `id` |
| Handlers.EnqueueLands | src/main.py:88-99 | adding to a well-formed queue adds one unserved record. It lands at index m: the number of unserved priority records for `P`, or K for `N`. Its position is m + 1. Records before it are unchanged, the unserved records behind it move back one place, the served tail is unchanged, and the invariant holds |
| Handlers.AdvanceServesHead | src/main.py:102-110 | with K = 0, advancing changes nothing. Otherwise it serves the head at position 0, moves the others up one place, keeps the length, lowers K by one, and keeps the invariant |
| Handlers.HeadOfLine | src/main.py:37-39 | the head of a well-formed queue is its first unserved priority record if there is one, else its first unserved normal record |
| Handlers.DeleteByPosition | src/main.py:113-124 | removal fails exactly when `id` is not in 1..K. Otherwise the list is one shorter, K drops by one, the record at index id - 1 is gone, the records before it are unchanged, those behind it move up one place, the served tail is unchanged, and the invariant holds |
| QueueStore.SortByRank | src/main.py:44 | the two-bucket pass is a stable sort by the key |
| QueueStore.Queue.constructor | src/main.py:31 | the queue starts empty and well-formed |
| QueueStore.Queue.Recompute | src/main.py:36-49 | the loop-based reordering leaves `Recomputed` of the old list. The result is ordered, well-formed when the old list was, and unchanged when the old list was already well-formed |
| QueueStore.Queue.FindByPosition | src/main.py:51-55 | the loop returns the first index holding the position, or None when none does; it agrees with `FindIndex` |
| QueueStore.Queue.List | src/main.py:70-73 | GET /fila returns the unserved prefix, numbered 1..K and sorted by type, and leaves the queue as it was |
| QueueStore.Queue.Get | src/main.py:76-85 | GET /fila/{id} returns the record at index id - 1 exactly when 1 <= id <= K, and NotFound(id) otherwise; the queue is left as it was |
| QueueStore.Queue.Add | src/main.py:88-99 | POST /fila leaves `Enqueued` of the old list, one record longer with K one higher. It returns the record the new client became, at position LandingIndex + 1 |
| QueueStore.Queue.Advance | src/main.py:102-110 | PUT /fila leaves `Advanced` of the old list, of the same length, and returns its unserved records. With K > 0, K drops by one and the old head, which is the first priority record if any and otherwise the first normal one, now sits first in the served tail as served |
| QueueStore.Queue.Delete | src/main.py:113-124 | DELETE /fila/{id} gives NotFound exactly when `id` is not in 1..K, and then leaves the queue as it was. Otherwise the queue is `DeleteOutcome` of the old list, one record shorter with K one lower |

## Left out

- The HTTP layer: the FastAPI application, route decorators, status codes, `HTTPException` and response models. The model keeps only the `NotFound` outcome, which carries the requested position.
- The status payload of the root route carries no queue logic.
- Input validation by pydantic. Queue.Add requires a name of length 1..20 as its precondition. Whitespace stripping and the check on the type literal are not modelled, and the type is a two-valued datatype.
- Reading the wall clock (`agora_utc`). The arrival time is the parameter `now` of Queue.Add. It is stored and never compared.
- Concurrent requests on the shared list. The model assumes the requests arrive one at a time.
- Object identity and aliasing. Records are values in a sequence, so:
  - serving a record writes a new value at its index;
  - `list.remove` removes the first record equal to the one found;
  - Queue.Add returns the list element the new record became, rather than the appended object itself.
- Queue.Advance: the test `if primeiro:` is taken to be true for every record found, since a record object is always truthy.
- QueueStore.SortByRank: Python's `list.sort` is a library call. It is modelled by a two-bucket pass whose contract is the stable-sort promise. `Ordering.ByRankIsTheStableSort` shows that this contract has exactly one result.
- Queue.List, Queue.Get, Queue.Add, Queue.Advance and Queue.Delete require `Valid()`, the store invariant. The constructor establishes it and every method preserves it. `Ordering.RecomputedOrdered` covers reordering a list that breaks it.
- Handlers.LookupOutcome and Handlers.DeleteOutcome: on NotFound they do not return the list that the source's first reordering leaves behind. On a list satisfying the store invariant that reordering changes nothing (Ordering.RecomputedFixpoint), so Queue.Get and Queue.Delete, which keep the invariant, are exact; only a list breaking the invariant would see the difference.
