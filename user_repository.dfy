/** `UserInMemoryRepository` (user-in-memory.repository.ts): the users kept in
    memory and the filter, default order and finders it adds to the shared
    in-memory repository. */
module UserRepository {
  import opened Wrappers
  import opened Text
  import opened Seqs
  import opened Sorting
  import opened UserAggregate

  /** `UserFilter`: an optional name and an optional e-mail fragment. */
  datatype UserFilter = UserFilter(email: Option<string>, name: Option<string>)

  /** A sub-filter that is absent or empty matches every user. */
  predicate Given(part: Option<string>) {
    part.Some? && part.value != ""
  }

  /** The test `applyFilter` applies to each user. */
  predicate Matches(u: User, f: UserFilter) {
    && (Given(f.name) ==> ContainsIgnoreCase(u.name, f.name.value))
    && (Given(f.email) ==> ContainsIgnoreCase(u.email, f.email.value))
  }

  /** The fields a search may sort users by. */
  datatype UserSortField = Name | Email | CreatedAt {
    function Value(): string {
      match this
      case Name => "name"
      case Email => "email"
      case CreatedAt => "created_at"
    }
  }

  /** `sortableFields`. */
  const SortableFields: seq<string> := ["name", "email", "created_at"]

  /** The sortable field named `s`, if `s` names one. */
  function ParseSortField(s: string): (r: Option<UserSortField>)
    ensures r.Some? <==> s in SortableFields
    ensures r.Some? ==> r.value.Value() == s
  {
    if s == "name" then Some(Name)
    else if s == "email" then Some(Email)
    else if s == "created_at" then Some(CreatedAt)
    else None
  }

  /** Every sortable field is named by its value, and the names are exactly
      the declared sortable fields. */
  lemma {:induction false} SortFieldNames(f: UserSortField)
    ensures ParseSortField(f.Value()) == Some(f)
    ensures f.Value() in SortableFields
  {
    match f
    case Name =>
    case Email =>
    case CreatedAt =>
  }

  /** The value of a user's sort field. */
  function SortKeyOf(u: User, field: UserSortField): SortKey {
    match field
    case Name => Text(u.name)
    case Email => Text(u.email)
    case CreatedAt => Number(u.createdAt)
  }

  /** The users ordered by one field. */
  function SortByField(items: seq<User>, field: UserSortField, dir: SortDirection): (r: seq<User>)
    ensures multiset(r) == multiset(items)
    ensures forall i, j :: 0 <= i < j < |r| ==> InOrder(SortKeyOf(r[i], field), SortKeyOf(r[j], field), dir)
  {
    SortBy(items, u => SortKeyOf(u, field), dir)
  }

  /** The default order: by creation time, newest first. */
  function NewestFirst(items: seq<User>): (r: seq<User>)
    ensures multiset(r) == multiset(items)
    ensures forall i, j :: 0 <= i < j < |r| ==> r[i].createdAt >= r[j].createdAt
  {
    var r := SortByField(items, CreatedAt, Desc);
    CreatedAtDescending(r);
    r
  }

  /** Keys in descending creation-time order are creation times, newest first. */
  lemma CreatedAtDescending(r: seq<User>)
    requires forall i, j :: 0 <= i < j < |r| ==> InOrder(SortKeyOf(r[i], CreatedAt), SortKeyOf(r[j], CreatedAt), Desc)
    ensures forall i, j :: 0 <= i < j < |r| ==> r[i].createdAt >= r[j].createdAt
  {
    forall i, j | 0 <= i < j < |r| ensures r[i].createdAt >= r[j].createdAt {
      assert InOrder(SortKeyOf(r[i], CreatedAt), SortKeyOf(r[j], CreatedAt), Desc);
    }
  }

  class UserInMemoryRepository {
    var items: seq<User>

    constructor()
      ensures items == []
    {
      items := [];
    }

    /** `insert` of the shared repository: the user is added at the end. */
    method Insert(u: User)
      modifies this
      ensures items == old(items) + [u]
    {
      items := items + [u];
    }

    /** `applyFilter`: no filter keeps every user; otherwise the users whose
        lower-cased name (and e-mail) contain the lower-cased filter name
        (and e-mail), in their original order. */
    static function ApplyFilter(items: seq<User>, filter: Option<UserFilter>): (r: seq<User>)
      ensures filter.None? ==> r == items
      ensures Subseq(r, items)
      ensures filter.Some? ==> forall i :: 0 <= i < |r| ==> Matches(r[i], filter.value)
      ensures filter.Some? ==> forall i :: 0 <= i < |items| && Matches(items[i], filter.value) ==> items[i] in r
      ensures filter.Some? ==> forall x :: x in items ==> multiset(r)[x] == if Matches(x, filter.value) then multiset(items)[x] else 0
    {
      SubseqRefl(items);
      if filter.None? then items else Filter(items, u => Matches(u, filter.value))
    }

    /** `applySort`: by the requested field and direction, and newest first
        when no field is requested. The result holds the same users. */
    static function ApplySort(items: seq<User>, sort: Option<UserSortField>, dir: SortDirection): (r: seq<User>)
      ensures multiset(r) == multiset(items)
      ensures sort.Some? ==> forall i, j :: 0 <= i < j < |r| ==> InOrder(SortKeyOf(r[i], sort.value), SortKeyOf(r[j], sort.value), dir)
      ensures sort.None? ==> forall i, j :: 0 <= i < j < |r| ==> r[i].createdAt >= r[j].createdAt
    {
      if sort.Some? then SortByField(items, sort.value, dir) else NewestFirst(items)
    }

    /** `findByEmail`: the first stored user whose e-mail equals `email` up to
        case, or `null`. */
    function FindByEmail(email: string): (r: Option<User>)
      reads this
      ensures r.None? <==> forall i :: 0 <= i < |items| ==> !EqualsIgnoreCase(items[i].email, email)
      ensures r.Some? ==> exists i :: (0 <= i < |items| && items[i] == r.value
        && EqualsIgnoreCase(items[i].email, email)
        && forall j :: 0 <= j < i ==> !EqualsIgnoreCase(items[j].email, email))
    {
      Find(items, (u: User) => EqualsIgnoreCase(u.email, email))
    }

    /** `findByName`: every stored user whose name equals `name` up to case,
        in stored order. */
    function FindByName(name: string): (r: seq<User>)
      reads this
      ensures Subseq(r, items)
      ensures forall i :: 0 <= i < |r| ==> EqualsIgnoreCase(r[i].name, name)
      ensures forall i :: 0 <= i < |items| && EqualsIgnoreCase(items[i].name, name) ==> items[i] in r
      ensures forall x :: x in items ==> multiset(r)[x] == if EqualsIgnoreCase(x.name, name) then multiset(items)[x] else 0
    {
      Filter(items, (u: User) => EqualsIgnoreCase(u.name, name))
    }
  }

  /** An empty filter, or one whose parts are empty, keeps every user. */
  lemma {:induction false} EmptyFilterKeepsAll(items: seq<User>)
    ensures UserInMemoryRepository.ApplyFilter(items, Some(UserFilter(None, None))) == items
    ensures UserInMemoryRepository.ApplyFilter(items, Some(UserFilter(Some(""), Some("")))) == items
  {
    FilterKeepsAll(items, u => Matches(u, UserFilter(None, None)));
    FilterKeepsAll(items, u => Matches(u, UserFilter(Some(""), Some(""))));
  }

  /** A user is kept by a name-and-e-mail filter exactly when it is kept by
      the name part alone and by the e-mail part alone. */
  lemma {:induction false} FilterConjunctive(u: User, name: Option<string>, email: Option<string>)
    ensures Matches(u, UserFilter(email, name)) <==>
      Matches(u, UserFilter(None, name)) && Matches(u, UserFilter(email, None))
  {
  }

  /** A name filter keeps a user exactly when the user's lower-cased name
      contains the lower-cased filter name somewhere. */
  lemma {:induction false} NameFilterIsSubstring(u: User, name: string)
    requires name != ""
    ensures Matches(u, UserFilter(None, Some(name))) <==>
      exists i :: OccursAt(Lower(u.name), Lower(name), i)
  {
  }
}
