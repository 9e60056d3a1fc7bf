/** `TicketInMemoryRepository` (ticket-in-memory.repository.ts): the tickets
    kept in memory, the status filter, the default order and the finder by
    user it adds to the shared in-memory repository. A ticket's status can
    change, so these functions read the tickets. */
module TicketRepository {
  import opened Wrappers
  import opened Text
  import opened Seqs
  import opened Sorting
  import opened TicketAggregate

  /** The test `applyFilter` applies to each ticket. */
  predicate StatusMatches(t: Ticket, filter: string)
    reads t
  {
    ContainsIgnoreCase(t.status, filter)
  }

  /** The empty filter is contained in every status. */
  lemma EmptyFilterMatchesAll(items: seq<Ticket>)
    ensures forall t :: t in items ==> StatusMatches(t, "")
  {
    forall t | t in items ensures StatusMatches(t, "") {
      ContainsEmpty(Lower(t.status));
    }
  }

  /** The tickets whose status contains `filter` up to case, in order. */
  function FilterByStatus(items: seq<Ticket>, filter: string): (r: seq<Ticket>)
    reads set t | t in items
    ensures Subseq(r, items)
    ensures forall i :: 0 <= i < |r| ==> r[i] in items && StatusMatches(r[i], filter)
    ensures forall i :: 0 <= i < |items| && StatusMatches(items[i], filter) ==> items[i] in r
  {
    if items == [] then []
    else
      var rest := FilterByStatus(items[1..], filter);
      assert forall i :: 1 <= i < |items| ==> items[i] == items[1..][i - 1];
      if StatusMatches(items[0], filter) then [items[0]] + rest else rest
  }

  /** `FilterByStatus` keeps every matching ticket as often as it occurs. */
  lemma {:induction false} FilterByStatusCounts(items: seq<Ticket>, filter: string)
    ensures forall x :: x in items ==>
      multiset(FilterByStatus(items, filter))[x] == if StatusMatches(x, filter) then multiset(items)[x] else 0
  {
    if items != [] {
      FilterByStatusCounts(items[1..], filter);
      var rest := FilterByStatus(items[1..], filter);
      assert items == [items[0]] + items[1..];
      forall x | x in items
        ensures multiset(FilterByStatus(items, filter))[x] == if StatusMatches(x, filter) then multiset(items)[x] else 0
      {
        if x !in items[1..] {
          assert x !in rest;
        }
      }
    }
  }

  /** The fields a search may sort tickets by. */
  datatype TicketSortField = Price | Status | CreatedAt {
    function Value(): string {
      match this
      case Price => "price"
      case Status => "status"
      case CreatedAt => "created_at"
    }
  }

  /** `sortableFields`. */
  const SortableFields: seq<string> := ["price", "status", "created_at"]

  /** The sortable field named `s`, if `s` names one. */
  function ParseSortField(s: string): (r: Option<TicketSortField>)
    ensures r.Some? <==> s in SortableFields
    ensures r.Some? ==> r.value.Value() == s
  {
    if s == "price" then Some(Price)
    else if s == "status" then Some(Status)
    else if s == "created_at" then Some(CreatedAt)
    else None
  }

  /** Every sortable field is named by its value, and the names are exactly
      the declared sortable fields. */
  lemma {:induction false} SortFieldNames(f: TicketSortField)
    ensures ParseSortField(f.Value()) == Some(f)
    ensures f.Value() in SortableFields
  {
    match f
    case Price =>
    case Status =>
    case CreatedAt =>
  }

  /** The value of a ticket's sort field. */
  function SortKeyOf(t: Ticket, field: TicketSortField): SortKey
    reads t
  {
    match field
    case Price => Number(t.price)
    case Status => Text(t.status)
    case CreatedAt => Number(t.createdAt)
  }

  /** Pairs every ticket with the value of its sort field. */
  function KeyedBy(items: seq<Ticket>, field: TicketSortField): (r: seq<Keyed<Ticket>>)
    reads set t | t in items
    ensures Items(r) == items
    ensures forall i :: 0 <= i < |r| ==> r[i].key == SortKeyOf(r[i].item, field)
  {
    seq(|items|, i reads set t | t in items requires 0 <= i < |items| => Keyed(SortKeyOf(items[i], field), items[i]))
  }

  /** The tickets ordered by one field: the same tickets, as often as in
      `items`, with their keys in order. */
  function SortByField(items: seq<Ticket>, field: TicketSortField, dir: SortDirection): (r: seq<Ticket>)
    reads set t | t in items
    ensures multiset(r) == multiset(items)
    ensures forall i, j :: 0 <= i < j < |r| ==> InOrder(SortKeyOf(r[i], field), SortKeyOf(r[j], field), dir)
  {
    var keyed := KeyedBy(items, field);
    var sorted := SortKeyed(keyed, dir);
    SortedKeysCorrect(keyed, sorted, field);
    Items(sorted)
  }

  /** A permutation of a correctly keyed sequence is correctly keyed. */
  lemma SortedKeysCorrect(keyed: seq<Keyed<Ticket>>, sorted: seq<Keyed<Ticket>>, field: TicketSortField)
    requires forall i :: 0 <= i < |keyed| ==> keyed[i].key == SortKeyOf(keyed[i].item, field)
    requires multiset(sorted) == multiset(keyed)
    ensures forall i :: 0 <= i < |sorted| ==> sorted[i].key == SortKeyOf(sorted[i].item, field)
  {
    forall i | 0 <= i < |sorted| ensures sorted[i].key == SortKeyOf(sorted[i].item, field) {
      assert sorted[i] in multiset(keyed);
      var j :| 0 <= j < |keyed| && keyed[j] == sorted[i];
    }
  }

  /** The default order: by creation time, newest first. */
  function NewestFirst(items: seq<Ticket>): (r: seq<Ticket>)
    reads set t | t in items
    ensures multiset(r) == multiset(items)
    ensures forall i, j :: 0 <= i < j < |r| ==> r[i].createdAt >= r[j].createdAt
  {
    var r := SortByField(items, CreatedAt, Desc);
    CreatedAtDescending(r);
    r
  }

  /** Keys in descending creation-time order are creation times, newest first. */
  lemma CreatedAtDescending(r: seq<Ticket>)
    requires forall i, j :: 0 <= i < j < |r| ==> InOrder(SortKeyOf(r[i], CreatedAt), SortKeyOf(r[j], CreatedAt), Desc)
    ensures forall i, j :: 0 <= i < j < |r| ==> r[i].createdAt >= r[j].createdAt
  {
    forall i, j | 0 <= i < j < |r| ensures r[i].createdAt >= r[j].createdAt {
      assert InOrder(SortKeyOf(r[i], CreatedAt), SortKeyOf(r[j], CreatedAt), Desc);
    }
  }

  class TicketInMemoryRepository {
    var items: seq<Ticket>

    constructor()
      ensures items == []
    {
      items := [];
    }

    /** `insert` of the shared repository: the ticket is added at the end. */
    method Insert(t: Ticket)
      modifies this
      ensures items == old(items) + [t]
    {
      items := items + [t];
    }

    /** `applyFilter`: no filter, or an empty one, keeps every ticket;
        otherwise the tickets whose lower-cased status contains the
        lower-cased filter, in their original order. */
    static function ApplyFilter(items: seq<Ticket>, filter: Option<string>): (r: seq<Ticket>)
      reads set t | t in items
      ensures filter.None? || filter.value == "" ==> r == items
      ensures Subseq(r, items)
      ensures filter.Some? ==> forall i :: 0 <= i < |r| ==> StatusMatches(r[i], filter.value)
      ensures filter.Some? ==> forall i :: 0 <= i < |items| && StatusMatches(items[i], filter.value) ==> items[i] in r
      ensures filter.Some? ==> forall x :: x in items ==>
        multiset(r)[x] == if StatusMatches(x, filter.value) then multiset(items)[x] else 0
    {
      SubseqRefl(items);
      if filter.None? || filter.value == "" then
        EmptyFilterMatchesAll(items);
        items
      else
        FilterByStatusCounts(items, filter.value);
        FilterByStatus(items, filter.value)
    }

    /** `applySort`: by the requested field and direction, and newest first
        when no field is requested. The result holds the same tickets. */
    static function ApplySort(items: seq<Ticket>, sort: Option<TicketSortField>, dir: SortDirection): (r: seq<Ticket>)
      reads set t | t in items
      ensures multiset(r) == multiset(items)
      ensures sort.Some? ==> forall i, j :: 0 <= i < j < |r| ==> InOrder(SortKeyOf(r[i], sort.value), SortKeyOf(r[j], sort.value), dir)
      ensures sort.None? ==> forall i, j :: 0 <= i < j < |r| ==> r[i].createdAt >= r[j].createdAt
    {
      if sort.Some? then SortByField(items, sort.value, dir) else NewestFirst(items)
    }

    /** `findByUserId`: the stored tickets bought by the user with id
        `userId`, in stored order. */
    function FindByUserId(userId: string): (r: seq<Ticket>)
      reads this
      ensures Subseq(r, items)
      ensures forall i :: 0 <= i < |r| ==> r[i].user.EntityId().id == userId
      ensures forall i :: 0 <= i < |items| && items[i].user.EntityId().id == userId ==> items[i] in r
      ensures forall x :: x in items ==> multiset(r)[x] == if x.user.EntityId().id == userId then multiset(items)[x] else 0
    {
      Filter(items, (t: Ticket) => t.user.userId.id == userId)
    }
  }
}
