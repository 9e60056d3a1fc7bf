/** `EventSearchParams` (event.repository.ts): the search request for events
    and the normalisation its `filter` setter applies to whatever value a
    caller supplied as filter. */
module EventRepository {
  import opened Wrappers
  import opened Shared
  import Text

  /** A JavaScript value as the filter setter can meet it: primitives, a
      `Date`, or a plain object with its own properties. */
  datatype JsValue =
    | Undefined
    | Null
    | Str(s: string)
    | Num(n: int)
    | Bool(b: bool)
    | DateObj(d: Date)
    | Object(props: map<string, JsValue>)

  /** JavaScript truthiness: `undefined`, `null`, `""`, `0` and `false` are falsy. */
  predicate Truthy(v: JsValue) {
    match v
    case Undefined => false
    case Null => false
    case Str(s) => s != ""
    case Num(n) => n != 0
    case Bool(b) => b
    case DateObj(_) => true
    case Object(_) => true
  }

  /** `typeof v === 'object'` for a non-null value. */
  predicate IsObject(v: JsValue) {
    v.DateObj? || v.Object?
  }

  /** `v?.key`: the property, or `undefined` when the value has none. */
  function Get(v: JsValue, key: string): JsValue {
    if v.Object? && key in v.props then v.props[key] else Undefined
  }

  /** The template literal `${v}`. How a `Date` prints is not part of this
      model: it is the parameter `dateText`. */
  function Stringify(v: JsValue, dateText: Date -> string): string {
    match v
    case Undefined => "undefined"
    case Null => "null"
    case Str(s) => s
    case Num(n) => Text.IntToString(n)
    case Bool(b) => if b then "true" else "false"
    case DateObj(d) => dateText(d)
    case Object(_) => "[object Object]"
  }

  /** `EventFilter`: at most a title, a location and a date range. */
  datatype EventFilter = EventFilter(title: Option<string>, location: Option<string>, dateRange: Option<JsValue>)

  /** A filter as the setter can leave it: a present title or location is a
      non-empty string, a present date range is truthy, and some key is present. */
  predicate IsNormal(f: EventFilter) {
    && (f.title.Some? ==> f.title.value != "")
    && (f.location.Some? ==> f.location.value != "")
    && (f.dateRange.Some? ==> Truthy(f.dateRange.value))
    && (f.title.Some? || f.location.Some? || f.dateRange.Some?)
  }

  /** `${value}` for a truthy `title` or `location`, nothing otherwise. */
  function KeepText(v: JsValue, dateText: Date -> string): (r: Option<string>)
    ensures r.Some? <==> Truthy(v)
  {
    if Truthy(v) then Some(Stringify(v, dateText)) else None
  }

  /** The `filter` setter: a falsy value, `''` or a non-object becomes
      `null`; otherwise only a truthy `title` and `location` (as strings) and
      a truthy `dateRange` (as given) are kept, and a filter with none of
      them becomes `null` too. */
  function Normalize(v: JsValue, dateText: Date -> string): (r: Option<EventFilter>)
    ensures !Truthy(v) || !IsObject(v) ==> r.None?
    ensures r.None? <==>
      !Truthy(v) || !IsObject(v) ||
      (!Truthy(Get(v, "title")) && !Truthy(Get(v, "location")) && !Truthy(Get(v, "dateRange")))
    ensures r.Some? ==>
      && (r.value.title.Some? <==> Truthy(Get(v, "title")))
      && (r.value.title.Some? ==> r.value.title.value == Stringify(Get(v, "title"), dateText))
      && (r.value.location.Some? <==> Truthy(Get(v, "location")))
      && (r.value.location.Some? ==> r.value.location.value == Stringify(Get(v, "location"), dateText))
      && (r.value.dateRange.Some? <==> Truthy(Get(v, "dateRange")))
      && (r.value.dateRange.Some? ==> r.value.dateRange.value == Get(v, "dateRange"))
  {
    if !Truthy(v) || !IsObject(v) then None
    else
      var f := EventFilter(
        KeepText(Get(v, "title"), dateText),
        KeepText(Get(v, "location"), dateText),
        if Truthy(Get(v, "dateRange")) then Some(Get(v, "dateRange")) else None);
      if f.title.None? && f.location.None? && f.dateRange.None? then None else Some(f)
  }

  /** No JavaScript value prints as the empty string when it is truthy,
      provided no `Date` prints as the empty string. */
  lemma TruthyPrintsNonEmpty(v: JsValue, dateText: Date -> string)
    requires forall d :: dateText(d) != ""
    requires Truthy(v)
    ensures Stringify(v, dateText) != ""
  {
  }

  /** Whatever the setter keeps is a normal filter: never an empty object,
      never an empty title or location. */
  lemma NormalizeIsNormal(v: JsValue, dateText: Date -> string)
    requires forall d :: dateText(d) != ""
    requires Normalize(v, dateText).Some?
    ensures IsNormal(Normalize(v, dateText).value)
  {
    if Truthy(Get(v, "title")) {
      TruthyPrintsNonEmpty(Get(v, "title"), dateText);
    }
    if Truthy(Get(v, "location")) {
      TruthyPrintsNonEmpty(Get(v, "location"), dateText);
    }
  }

  /** The plain object holding exactly the present keys of a filter. */
  function ToObject(f: EventFilter): JsValue {
    Object(
      (if f.title.Some? then map["title" := Str(f.title.value)] else map[])
      + (if f.location.Some? then map["location" := Str(f.location.value)] else map[])
      + (if f.dateRange.Some? then map["dateRange" := f.dateRange.value] else map[]))
  }

  /** A normal filter, handed back to the setter, comes out as it went in. */
  lemma {:induction false} NormalRoundTrip(f: EventFilter, dateText: Date -> string)
    requires IsNormal(f)
    ensures Normalize(ToObject(f), dateText) == Some(f)
  {
    var o := ToObject(f);
    assert f.title.Some? ==> Get(o, "title") == Str(f.title.value);
    assert f.title.None? ==> Get(o, "title") == Undefined;
    assert f.location.Some? ==> Get(o, "location") == Str(f.location.value);
    assert f.location.None? ==> Get(o, "location") == Undefined;
    assert f.dateRange.Some? ==> Get(o, "dateRange") == f.dateRange.value;
    assert f.dateRange.None? ==> Get(o, "dateRange") == Undefined;
  }

  /** Normalising is idempotent: setting an already normalised filter again
      stores the same filter. */
  lemma {:induction false} NormalizeIdempotent(v: JsValue, dateText: Date -> string)
    requires forall d :: dateText(d) != ""
    requires Normalize(v, dateText).Some?
    ensures Normalize(ToObject(Normalize(v, dateText).value), dateText) == Normalize(v, dateText)
  {
    NormalizeIsNormal(v, dateText);
    NormalRoundTrip(Normalize(v, dateText).value, dateText);
  }

  /** The keys the setter reads. */
  const FilterKeys: set<string> := {"title", "location", "dateRange"}

  /** Any key other than `title`, `location` and `dateRange` is dropped:
      removing such keys from the object changes nothing. */
  lemma {:induction false} ExtraKeysIgnored(props: map<string, JsValue>, dateText: Date -> string)
    ensures Normalize(Object(props), dateText)
         == Normalize(Object(map k | k in props && k in FilterKeys :: props[k]), dateText)
  {
    var small := Object(map k | k in props && k in FilterKeys :: props[k]);
    assert Get(small, "title") == Get(Object(props), "title");
    assert Get(small, "location") == Get(Object(props), "location");
    assert Get(small, "dateRange") == Get(Object(props), "dateRange");
  }

  /** `EventSearchParams`; only the filter is modelled (page, per-page and
      sort belong to the `SearchParams` base class). */
  datatype EventSearchParams = EventSearchParams(filter: Option<EventFilter>)

  /** The value `create` hands the constructor: a shallow copy of the
      caller's filter object, or `undefined` when there is none. */
  function ShallowCopy(filter: Option<map<string, JsValue>>): (r: JsValue)
    ensures filter.None? ==> r == Undefined
    ensures filter.Some? ==> r.Object? && r.props == filter.value
  {
    if filter.Some? then Object(filter.value) else Undefined
  }

  /** `EventSearchParams.create`: the stored filter is the normalised copy. */
  function Create(filter: Option<map<string, JsValue>>, dateText: Date -> string): (r: EventSearchParams)
    ensures filter.None? ==> r.filter.None?
    ensures filter.Some? ==> r.filter == Normalize(Object(filter.value), dateText)
  {
    EventSearchParams(Normalize(ShallowCopy(filter), dateText))
  }

  /** Copying does not matter: the getter then returns a filter that
      normalises to itself, and an empty or all-falsy filter reads as `null`. */
  lemma {:induction false} CreateStoresNormal(filter: Option<map<string, JsValue>>, dateText: Date -> string)
    requires forall d :: dateText(d) != ""
    ensures Create(filter, dateText).filter.Some? ==>
      IsNormal(Create(filter, dateText).filter.value)
      && Normalize(ToObject(Create(filter, dateText).filter.value), dateText) == Create(filter, dateText).filter
  {
    var v := ShallowCopy(filter);
    if Normalize(v, dateText).Some? {
      NormalizeIdempotent(v, dateText);
      NormalizeIsNormal(v, dateText);
    }
  }
}
