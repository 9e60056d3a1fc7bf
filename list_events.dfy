/** `ListEventsUseCase` (list-events.use-case.ts): lists a page of events and
    resolves each event's price cache-aside, reading `event-price-<id>` from a
    cache and, on a miss, fetching it from a fallback pricing service and
    writing it back for an hour.

    The cache and the pricing service are external; what they do for a given
    key or id is fixed by oracles (`readFails`, `writeFails`, `prices`). The
    page's items, which the source resolves concurrently, are resolved one
    after the other, in page order. */
module ListEvents {
  import opened Wrappers
  import opened Shared
  import opened EventAggregate
  import EventOutputMapper
  import EventRepository

  /** The time-to-live, in seconds, of a price written to the cache. */
  const PriceTtl := 3600

  /** A cached value together with the expiry it was written with (`EX`). */
  datatype CacheEntry = CacheEntry(value: string, ttl: int)

  /** The state of the two external services: the cache's entries and the
      ids the pricing service has been asked for, in order. */
  datatype Services = Services(store: map<string, CacheEntry>, calls: seq<string>)

  /** How the external services behave: whether a cache read or write of a
      key throws, and the price the pricing service answers for an id
      (`None` when the request fails). */
  datatype Oracles = Oracles(
    readFails: string -> bool,
    writeFails: string -> bool,
    prices: string -> Option<string>)

  /** The cache key of an event's price, used both to read and to write. */
  function CacheKey(eventId: string): (r: string)
    ensures |r| == |"event-price-"| + |eventId|
    ensures r[..|"event-price-"|] == "event-price-" && r[|"event-price-"|..] == eventId
  {
    "event-price-" + eventId
  }

  /** Different events never share a cache key. */
  lemma CacheKeyInjective(a: string, b: string)
    requires CacheKey(a) == CacheKey(b)
    ensures a == b
  {
    assert a == CacheKey(a)[|"event-price-"|..];
  }

  /** The message an item fails with. */
  function RetrieveError(eventId: string): string {
    "Failed to retrieve price for event " + eventId
  }

  /** The message a failed fallback request throws. */
  function FetchError(eventId: string): string {
    "Failed to fetch price from fallback API for event " + eventId
  }

  /** `getEventPriceFromCache`: the stored value, or `null` when the key is
      absent or the read throws. */
  function ReadCache(s: Services, o: Oracles, key: string): (r: Option<string>)
    ensures o.readFails(key) ==> r.None?
    ensures !o.readFails(key) ==> (r.Some? <==> key in s.store)
    ensures r.Some? ==> key in s.store && r.value == s.store[key].value
  {
    if o.readFails(key) || key !in s.store then None else Some(s.store[key].value)
  }

  /** The outcome of resolving one item's price and the services afterwards. */
  datatype Step = Step(outcome: Result<string, string>, after: Services)

  /** One item of the page (the body of the mapped function): a truthy cached
      value is used as it is; otherwise the pricing service is asked, a
      failure fails the item, and a price it answers is written back with the
      one-hour expiry unless that write throws. */
  function Resolve(eventId: string, s: Services, o: Oracles): Step {
    var key := CacheKey(eventId);
    var cached := ReadCache(s, o, key);
    if cached.Some? && cached.value != "" then
      Step(Ok(cached.value), s)
    else
      var calls := s.calls + [eventId];
      match o.prices(eventId)
      case None => Step(Err(RetrieveError(eventId)), Services(s.store, calls))
      case Some(p) =>
        var store := if o.writeFails(key) then s.store else s.store[key := CacheEntry(p, PriceTtl)];
        Step(Ok(p), Services(store, calls))
  }

  /** A truthy cached value is returned; the pricing service is not asked and
      the cache is not written. */
  lemma HitSkipsFallback(eventId: string, s: Services, o: Oracles)
    requires ReadCache(s, o, CacheKey(eventId)).Some?
    requires ReadCache(s, o, CacheKey(eventId)).value != ""
    ensures Resolve(eventId, s, o) == Step(Ok(s.store[CacheKey(eventId)].value), s)
  {
  }

  /** On a miss (no entry, an empty one, or a read that throws) the pricing
      service is asked exactly once, and its price is returned and written
      back under the event's key with a one-hour expiry. */
  lemma MissFetchesAndWrites(eventId: string, s: Services, o: Oracles, p: string)
    requires ReadCache(s, o, CacheKey(eventId)) in {None, Some("")}
    requires o.prices(eventId) == Some(p) && !o.writeFails(CacheKey(eventId))
    ensures Resolve(eventId, s, o).outcome == Ok(p)
    ensures Resolve(eventId, s, o).after.calls == s.calls + [eventId]
    ensures Resolve(eventId, s, o).after.store == s.store[CacheKey(eventId) := CacheEntry(p, PriceTtl)]
  {
  }

  /** A cache read that throws is a miss: the item comes out as if the key
      were absent, and the error does not propagate. */
  lemma {:induction false} ReadErrorIsMiss(eventId: string, s: Services, o: Oracles)
    requires o.readFails(CacheKey(eventId))
    ensures var absent := Services(s.store - {CacheKey(eventId)}, s.calls);
      && Resolve(eventId, s, o).outcome == Resolve(eventId, absent, o).outcome
      && Resolve(eventId, s, o).after.calls == Resolve(eventId, absent, o).after.calls
  {
    var key := CacheKey(eventId);
    var absent := Services(s.store - {key}, s.calls);
    assert ReadCache(s, o, key).None?;
    assert key !in absent.store;
  }

  /** A cache write that throws is swallowed: the fetched price is still the
      item's price, and the cache is left as it was. */
  lemma WriteErrorSwallowed(eventId: string, s: Services, o: Oracles, p: string)
    requires ReadCache(s, o, CacheKey(eventId)) in {None, Some("")}
    requires o.prices(eventId) == Some(p) && o.writeFails(CacheKey(eventId))
    ensures Resolve(eventId, s, o) == Step(Ok(p), Services(s.store, s.calls + [eventId]))
  {
  }

  /** A failed fallback request on a miss fails the item with its message. */
  lemma FallbackFailureFailsItem(eventId: string, s: Services, o: Oracles)
    requires ReadCache(s, o, CacheKey(eventId)) in {None, Some("")}
    requires o.prices(eventId).None?
    ensures Resolve(eventId, s, o).outcome == Err(RetrieveError(eventId))
    ensures Resolve(eventId, s, o).after.store == s.store
  {
  }

  /** Cache-aside: starting with no entry for the event and services that do
      not fail, resolving twice asks the pricing service once and yields its
      price both times. */
  lemma {:induction false} SecondResolveHitsCache(eventId: string, s: Services, o: Oracles, p: string)
    requires CacheKey(eventId) !in s.store
    requires !o.readFails(CacheKey(eventId)) && !o.writeFails(CacheKey(eventId))
    requires o.prices(eventId) == Some(p) && p != ""
    ensures var first := Resolve(eventId, s, o);
      var second := Resolve(eventId, first.after, o);
      && first.outcome == Ok(p) && second.outcome == Ok(p)
      && second.after.calls == s.calls + [eventId]
  {
    var first := Resolve(eventId, s, o);
    MissFetchesAndWrites(eventId, s, o, p);
    assert ReadCache(first.after, o, CacheKey(eventId)) == Some(p);
    HitSkipsFallback(eventId, first.after, o);
  }

  /** The outcomes of a page's items resolved in order, and the services
      after the last one. */
  datatype Steps = Steps(outcomes: seq<Result<string, string>>, after: Services)

  function ResolveAll(ids: seq<string>, s: Services, o: Oracles): (r: Steps)
    ensures |r.outcomes| == |ids|
  {
    if ids == [] then Steps([], s)
    else
      var prev := ResolveAll(ids[..|ids| - 1], s, o);
      var last := Resolve(ids[|ids| - 1], prev.after, o);
      Steps(prev.outcomes + [last.outcome], last.after)
  }

  /** The first failure among the outcomes, in page order. */
  function FirstError(outcomes: seq<Result<string, string>>): (r: Option<string>)
    ensures r.None? <==> forall i :: 0 <= i < |outcomes| ==> outcomes[i].Ok?
    ensures r.Some? ==> exists i :: 0 <= i < |outcomes| && outcomes[i] == Err(r.value)
  {
    if outcomes == [] then None
    else
      var prev := FirstError(outcomes[..|outcomes| - 1]);
      if prev.Some? then prev
      else if outcomes[|outcomes| - 1].Err? then Some(outcomes[|outcomes| - 1].error)
      else None
  }

  /** The ids of a page's events. */
  function Ids(events: seq<Event>): (r: seq<string>)
    ensures |r| == |events|
    ensures forall i :: 0 <= i < |events| ==> r[i] == events[i].EntityId().id
  {
    seq(|events|, i requires 0 <= i < |events| => events[i].eventId.id)
  }

  /** The output of an event once its price is `price`. */
  function PricedOutput(e: Event, price: int): EventOutputMapper.EventOutput {
    EventOutputMapper.EventOutput(e.eventId.id, e.title, e.description, e.date, e.location, price,
                                  e.totalAvailableTickets, e.createdAt)
  }

  /** Once an event's price is `price`, its output is `PricedOutput`. */
  lemma PricedOutputIsOutput(e: Event, price: int)
    requires e.price == price
    ensures PricedOutput(e, price) == EventOutputMapper.ToOutput(e)
  {
  }

  /** What `toOutput` answers for a page: the first item failure, or one
      output per event, in page order, carrying the resolved price. */
  function PageOutcome(events: seq<Event>, s: Services, o: Oracles, parsePrice: string -> int)
    : Result<seq<EventOutputMapper.EventOutput>, string>
  {
    var all := ResolveAll(Ids(events), s, o);
    var failure := FirstError(all.outcomes);
    if failure.Some? then Err(failure.value)
    else Ok(seq(|events|, i requires 0 <= i < |events| && i < |all.outcomes| && all.outcomes[i].Ok? =>
      PricedOutput(events[i], parsePrice(all.outcomes[i].value))))
  }

  /** A single item that fails makes the whole page fail. */
  lemma {:induction false} ItemFailureFailsPage(events: seq<Event>, s: Services, o: Oracles, parsePrice: string -> int, i: int)
    requires 0 <= i < |events|
    requires ResolveAll(Ids(events), s, o).outcomes[i].Err?
    ensures PageOutcome(events, s, o, parsePrice).Err?
  {
    assert !(ResolveAll(Ids(events), s, o).outcomes[i].Ok?);
  }

  /** A page that succeeds has one output per event, in the same order, with
      the event's id and its resolved price. */
  lemma {:induction false} OrderPreserved(events: seq<Event>, s: Services, o: Oracles, parsePrice: string -> int)
    requires PageOutcome(events, s, o, parsePrice).Ok?
    ensures var out := PageOutcome(events, s, o, parsePrice).value;
      var all := ResolveAll(Ids(events), s, o);
      && |out| == |events|
      && forall i :: 0 <= i < |events| ==>
           all.outcomes[i].Ok? && out[i].id == events[i].eventId.id
           && out[i].price == parsePrice(all.outcomes[i].value)
  {
  }

  /** The price an event ends up with: the resolved price of its last
      successful occurrence on the page, else the price it had. */
  function FinalPrice(events: seq<Event>, outcomes: seq<Result<string, string>>, e: Event, before: int, parsePrice: string -> int): int
    requires |outcomes| == |events|
  {
    if events == [] then before
    else
      var n := |events| - 1;
      if events[n] == e && outcomes[n].Ok? then parsePrice(outcomes[n].value)
      else FinalPrice(events[..n], outcomes[..n], e, before, parsePrice)
  }

  /** On a page listing each event once, an event's price afterwards is its
      resolved price, or the one it had when its item failed. */
  lemma {:induction false} FinalPriceDistinct(events: seq<Event>, outcomes: seq<Result<string, string>>, i: int, before: int, parsePrice: string -> int)
    requires |outcomes| == |events| && 0 <= i < |events|
    requires forall j, k :: 0 <= j < k < |events| ==> events[j] != events[k]
    ensures FinalPrice(events, outcomes, events[i], before, parsePrice)
         == if outcomes[i].Ok? then parsePrice(outcomes[i].value) else before
    decreases |events|
  {
    var n := |events| - 1;
    if i < n {
      assert events[n] != events[i];
      FinalPriceDistinct(events[..n], outcomes[..n], i, before, parsePrice);
    }
    else if outcomes[n].Err? {
      FinalPriceAbsent(events[..n], outcomes[..n], events[i], before, parsePrice);
    }
  }

  /** An event that is not on the page keeps its price. */
  lemma {:induction false} FinalPriceAbsent(events: seq<Event>, outcomes: seq<Result<string, string>>, e: Event, before: int, parsePrice: string -> int)
    requires |outcomes| == |events| && e !in events
    ensures FinalPrice(events, outcomes, e, before, parsePrice) == before
    decreases |events|
  {
    if events != [] {
      var n := |events| - 1;
      assert events[n] != e;
      FinalPriceAbsent(events[..n], outcomes[..n], e, before, parsePrice);
    }
  }

  /** The outputs gathered for the items resolved so far, all successfully. */
  ghost predicate Gathered(outputs: seq<EventOutputMapper.EventOutput>, events: seq<Event>,
                           outcomes: seq<Result<string, string>>, parsePrice: string -> int)
  {
    && |outputs| == |outcomes| <= |events|
    && forall j :: 0 <= j < |outcomes| ==>
         outcomes[j].Ok? && outputs[j] == PricedOutput(events[j], parsePrice(outcomes[j].value))
  }

  /** One more resolved item adds its output. */
  lemma GatheredSnoc(outputs: seq<EventOutputMapper.EventOutput>, events: seq<Event>,
                     outcomes: seq<Result<string, string>>, r: Result<string, string>, parsePrice: string -> int)
    requires Gathered(outputs, events, outcomes, parsePrice)
    requires |outcomes| < |events| && r.Ok?
    ensures Gathered(outputs + [PricedOutput(events[|outcomes|], parsePrice(r.value))], events, outcomes + [r], parsePrice)
  {
  }

  /** Resolving one more item extends the outcomes of the ones before it. */
  lemma ResolveAllSnoc(ids: seq<string>, i: int, s: Services, o: Oracles)
    requires 0 <= i < |ids|
    ensures var prev := ResolveAll(ids[..i], s, o);
      var last := Resolve(ids[i], prev.after, o);
      ResolveAll(ids[..i + 1], s, o) == Steps(prev.outcomes + [last.outcome], last.after)
  {
    assert ids[..i + 1][..i] == ids[..i];
  }

  /** The first failure after one more outcome. */
  lemma FirstErrorSnoc(outcomes: seq<Result<string, string>>, r: Result<string, string>)
    ensures FirstError(outcomes + [r]) ==
      if FirstError(outcomes).Some? then FirstError(outcomes)
      else if r.Err? then Some(r.error) else None
  {
    assert (outcomes + [r])[..|outcomes|] == outcomes;
  }

  /** The final price after one more item. */
  lemma FinalPriceSnoc(events: seq<Event>, outcomes: seq<Result<string, string>>, r: Result<string, string>,
                       i: int, e: Event, before: int, parsePrice: string -> int)
    requires |outcomes| == i < |events|
    ensures FinalPrice(events[..i + 1], outcomes + [r], e, before, parsePrice) ==
      if events[i] == e && r.Ok? then parsePrice(r.value)
      else FinalPrice(events[..i], outcomes, e, before, parsePrice)
  {
    assert events[..i + 1][..i] == events[..i];
    assert (outcomes + [r])[..i] == outcomes;
  }

  /** A page whose every item resolved answers the outputs gathered. */
  lemma PageOutcomeGathered(events: seq<Event>, s: Services, o: Oracles, parsePrice: string -> int,
                            outputs: seq<EventOutputMapper.EventOutput>)
    requires Gathered(outputs, events, ResolveAll(Ids(events), s, o).outcomes, parsePrice)
    ensures PageOutcome(events, s, o, parsePrice) == Ok(outputs)
  {
    var all := ResolveAll(Ids(events), s, o);
    assert FirstError(all.outcomes).None?;
    var page := PageOutcome(events, s, o, parsePrice);
    assert |page.value| == |outputs|;
    assert forall i :: 0 <= i < |outputs| ==> page.value[i] == outputs[i];
    assert page.value == outputs;
  }

  /** The cache (`redisService`): its entries, and which keys throw. */
  /** `ListEventsInput`: the listing's query. */
  datatype ListEventsInput = ListEventsInput(
    title: Option<string>,
    dateFrom: Option<Date>,
    dateTo: Option<Date>,
    location: Option<string>,
    priceMin: Option<int>,
    priceMax: Option<int>,
    page: Option<int>,
    perPage: Option<int>,
    sort: Option<string>,
    sortDir: Option<string>)

  function OrUndefined<T>(v: Option<T>, f: T -> EventRepository.JsValue): EventRepository.JsValue {
    if v.Some? then f(v.value) else EventRepository.Undefined
  }

  /** The input seen as the properties object `EventSearchParams.create`
      receives: one key per declared property, `undefined` when unset. */
  function AsProps(input: ListEventsInput): (r: map<string, EventRepository.JsValue>)
    ensures r.Keys == {"title", "dateFrom", "dateTo", "location", "priceMin", "priceMax", "page", "perPage", "sort", "sortDir"}
  {
    map[
      "title" := OrUndefined(input.title, s => EventRepository.Str(s)),
      "dateFrom" := OrUndefined(input.dateFrom, d => EventRepository.DateObj(d)),
      "dateTo" := OrUndefined(input.dateTo, d => EventRepository.DateObj(d)),
      "location" := OrUndefined(input.location, s => EventRepository.Str(s)),
      "priceMin" := OrUndefined(input.priceMin, n => EventRepository.Num(n)),
      "priceMax" := OrUndefined(input.priceMax, n => EventRepository.Num(n)),
      "page" := OrUndefined(input.page, n => EventRepository.Num(n)),
      "perPage" := OrUndefined(input.perPage, n => EventRepository.Num(n)),
      "sort" := OrUndefined(input.sort, s => EventRepository.Str(s)),
      "sortDir" := OrUndefined(input.sortDir, s => EventRepository.Str(s))]
  }

  /** `props.filter` as `create` reads it: the filter object when the
      property holds a truthy object, and nothing otherwise. */
  function FilterProp(props: map<string, EventRepository.JsValue>): (r: Option<map<string, EventRepository.JsValue>>)
    ensures r.Some? <==> "filter" in props && EventRepository.Truthy(props["filter"]) && props["filter"].Object?
  {
    if "filter" in props && EventRepository.Truthy(props["filter"]) && props["filter"].Object?
    then Some(props["filter"].props) else None
  }

  /** The search parameters without a filter. */
  const Unfiltered := EventRepository.EventSearchParams(None)

  /** Whatever the listing's input asks for, the search parameters built from
      it carry no filter. */
  lemma {:induction false} InputHasNoFilter(input: ListEventsInput, dateText: Date -> string)
    ensures EventRepository.Create(FilterProp(AsProps(input)), dateText) == Unfiltered
  {
    assert "filter" !in AsProps(input);
  }

  class RedisService {
    var store: map<string, CacheEntry>
    const readFails: string -> bool
    const writeFails: string -> bool

    constructor(store: map<string, CacheEntry>, readFails: string -> bool, writeFails: string -> bool)
      ensures this.store == store && this.readFails == readFails && this.writeFails == writeFails
    {
      this.store := store;
      this.readFails := readFails;
      this.writeFails := writeFails;
    }

    /** `get(key)`: the stored value, `null` when absent; throws when the
        read of `key` fails. */
    method Get(key: string) returns (r: Result<Option<string>, string>)
      ensures readFails(key) <==> r.Err?
      ensures r.Ok? ==> (r.value.Some? <==> key in store)
      ensures r.Ok? && r.value.Some? ==> r.value.value == store[key].value
    {
      if readFails(key) {
        r := Err("cache read failed");
      } else if key in store {
        r := Ok(Some(store[key].value));
      } else {
        r := Ok(None);
      }
    }

    /** `set(key, value, 'EX', ttl)`: stores the entry unless the write of
        `key` fails, in which case it throws and the cache is unchanged. */
    method Set(key: string, value: string, ttl: int) returns (r: Result<(), string>)
      modifies this
      ensures writeFails(key) <==> r.Err?
      ensures store == if writeFails(key) then old(store) else old(store)[key := CacheEntry(value, ttl)]
    {
      if writeFails(key) {
        r := Err("cache write failed");
      } else {
        store := store[key := CacheEntry(value, ttl)];
        r := Ok(());
      }
    }
  }

  /** The fallback pricing service: the price it answers for each id, and
      the ids it has been asked for. */
  class FallbackApi {
    var calls: seq<string>
    const prices: string -> Option<string>

    constructor(prices: string -> Option<string>)
      ensures calls == [] && this.prices == prices
    {
      calls := [];
      this.prices := prices;
    }

    /** `GET .../events/<id>/price`: the answered price as a string, or a
        failure. */
    method GetPrice(eventId: string) returns (r: Option<string>)
      modifies this
      ensures calls == old(calls) + [eventId]
      ensures r == prices(eventId)
    {
      calls := calls + [eventId];
      r := prices(eventId);
    }
  }

  class ListEventsUseCase {
    const redis: RedisService
    const api: FallbackApi
    /** `parseFloat` of a price string; not part of this model. */
    const parsePrice: string -> int

    constructor(redis: RedisService, api: FallbackApi, parsePrice: string -> int)
      ensures this.redis == redis && this.api == api && this.parsePrice == parsePrice
    {
      this.redis := redis;
      this.api := api;
      this.parsePrice := parsePrice;
    }

    function State(): Services
      reads redis, api
    {
      Services(redis.store, api.calls)
    }

    function Behaviour(): Oracles {
      Oracles(redis.readFails, redis.writeFails, api.prices)
    }

    /** `getEventPriceFromCache`: the cached value, or `null` on a miss or a
        read that throws. */
    method GetEventPriceFromCache(eventId: string) returns (price: Option<string>)
      ensures price == ReadCache(State(), Behaviour(), CacheKey(eventId))
    {
      var got := redis.Get(CacheKey(eventId));
      price := if got.Ok? then got.value else None;
    }

    /** `fetchPriceFromFallbackApi`: asks the pricing service once. */
    method FetchPriceFromFallbackApi(eventId: string) returns (r: Result<string, string>)
      modifies api
      ensures api.calls == old(api.calls) + [eventId]
      ensures api.prices(eventId).Some? ==> r == Ok(api.prices(eventId).value)
      ensures api.prices(eventId).None? ==> r == Err(FetchError(eventId))
    {
      var answer := api.GetPrice(eventId);
      r := if answer.Some? then Ok(answer.value) else Err(FetchError(eventId));
    }

    /** `cacheEventPrice`: writes the price with the one-hour expiry; a write
        that throws is swallowed. */
    method CacheEventPrice(eventId: string, price: string)
      modifies redis
      ensures redis.store == if redis.writeFails(CacheKey(eventId)) then old(redis.store)
                             else old(redis.store)[CacheKey(eventId) := CacheEntry(price, PriceTtl)]
    {
      var _ := redis.Set(CacheKey(eventId), price, PriceTtl);
    }

    /** One item of the page: resolves the event's price as `Resolve` says
        and, when it resolves, updates the event's price. */
    method ResolvePrice(e: Event) returns (r: Result<string, string>)
      modifies redis, api, e, e.notification
      ensures var step := Resolve(e.eventId.id, old(State()), Behaviour());
        r == step.outcome && State() == step.after
      ensures r.Ok? ==> e.price == parsePrice(r.value)
      ensures r.Err? ==> e.price == old(e.price)
      ensures e.notification.errors == old(e.notification.errors)
    {
      var id := e.EntityId().id;
      var cached := GetEventPriceFromCache(id);
      var price: string;
      if cached.Some? && cached.value != "" {
        price := cached.value;
      } else {
        var fetched := FetchPriceFromFallbackApi(id);
        if fetched.Err? {
          return Err(RetrieveError(id));
        }
        price := fetched.value;
        CacheEventPrice(id, price);
      }
      e.UpdatePrice(parsePrice(price));
      r := Ok(price);
    }

    /** Resolves item `i` of the page, after items `0` to `i - 1`: the first
        failure is kept, and while there is none the item's output is added. */
    method Advance(events: seq<Event>, i: int, ghost start: Services, ghost outcomes: seq<Result<string, string>>,
                   failure: Option<string>, outputs: seq<EventOutputMapper.EventOutput>)
      returns (ghost outcomes': seq<Result<string, string>>, failure': Option<string>,
               outputs': seq<EventOutputMapper.EventOutput>)
      requires 0 <= i < |events|
      requires outcomes == ResolveAll(Ids(events)[..i], start, Behaviour()).outcomes
      requires State() == ResolveAll(Ids(events)[..i], start, Behaviour()).after
      requires failure == FirstError(outcomes)
      requires failure.None? ==> Gathered(outputs, events, outcomes, parsePrice)
      modifies redis, api, events[i], events[i].notification
      ensures outcomes' == ResolveAll(Ids(events)[..i + 1], start, Behaviour()).outcomes
      ensures State() == ResolveAll(Ids(events)[..i + 1], start, Behaviour()).after
      ensures failure' == FirstError(outcomes')
      ensures failure'.None? ==> Gathered(outputs', events, outcomes', parsePrice)
      ensures outcomes' == outcomes + [outcomes'[i]]
      ensures forall x :: x in events ==>
        x.price == if x == events[i] && outcomes'[i].Ok? then parsePrice(outcomes'[i].value) else old(x.price)
      ensures forall x :: x in events ==> x.notification.errors == old(x.notification.errors)
    {
      var e := events[i];
      ResolveAllSnoc(Ids(events), i, start, Behaviour());
      var res := ResolvePrice(e);
      forall x | x in events
        ensures x.notification.errors == old(x.notification.errors)
      {
        if x.notification != e.notification {
          assert x.notification !in {redis, api, e, e.notification};
        }
      }
      outcomes' := outcomes + [res];
      FirstErrorSnoc(outcomes, res);
      failure', outputs' := failure, outputs;
      if failure.None? {
        if res.Ok? {
          PricedOutputIsOutput(e, parsePrice(res.value));
          GatheredSnoc(outputs, events, outcomes, res, parsePrice);
          outputs' := outputs + [EventOutputMapper.ToOutput(e)];
        } else {
          failure' := Some(res.error);
        }
      }
    }

    /** `toOutput`: resolves every item of the page in order; the page fails
        with the first failing item, and otherwise lists one output per event
        with its resolved price. Every item is resolved, so the services see
        every item's requests even when one fails. */
    method ToOutput(events: seq<Event>) returns (r: Result<seq<EventOutputMapper.EventOutput>, string>)
      modifies redis, api, set e | e in events, set e | e in events :: e.notification
      ensures r == PageOutcome(events, old(State()), Behaviour(), parsePrice)
      ensures State() == ResolveAll(Ids(events), old(State()), Behaviour()).after
      ensures forall e :: e in events ==>
        e.price == FinalPrice(events, ResolveAll(Ids(events), old(State()), Behaviour()).outcomes, e, old(e.price), parsePrice)
      ensures forall e :: e in events ==> e.notification.errors == old(e.notification.errors)
    {
      var ids := Ids(events);
      var outputs: seq<EventOutputMapper.EventOutput> := [];
      var failure: Option<string> := None;
      ghost var start := State();
      ghost var outcomes: seq<Result<string, string>> := [];
      for i := 0 to |events|
        invariant outcomes == ResolveAll(ids[..i], start, Behaviour()).outcomes
        invariant State() == ResolveAll(ids[..i], start, Behaviour()).after
        invariant failure == FirstError(outcomes)
        invariant failure.None? ==> Gathered(outputs, events, outcomes, parsePrice)
        invariant forall e :: e in events ==>
          e.price == FinalPrice(events[..i], outcomes, e, old(e.price), parsePrice)
        invariant forall e :: e in events ==> e.notification.errors == old(e.notification.errors)
      {
        ghost var before := outcomes;
        ghost var prices := map x | x in events :: x.price;
        outcomes, failure, outputs := Advance(events, i, start, outcomes, failure, outputs);
        forall x | x in events
          ensures x.price == FinalPrice(events[..i + 1], outcomes, x, old(x.price), parsePrice)
        {
          FinalPriceSnoc(events, before, outcomes[i], i, x, old(x.price), parsePrice);
          assert outcomes == before + [outcomes[i]];
        }
      }
      assert ids[..|events|] == ids;
      assert events[..|events|] == events;
      if failure.Some? {
        r := Err(failure.value);
      } else {
        PageOutcomeGathered(events, start, Behaviour(), parsePrice, outputs);
        r := Ok(outputs);
      }
    }

    /** `execute`: builds the search parameters from the input, searches,
        and resolves the prices of the page found. The input carries no
        `filter` property, so the search is never filtered, whatever title,
        location, dates or prices it asks for. The repository's search is not
        part of this model: it is the parameter `search`, whose events
        exist before the call. */
    method Execute(input: ListEventsInput, dateText: Date -> string,
                   search: EventRepository.EventSearchParams -> seq<Event>)
      returns (r: Result<seq<EventOutputMapper.EventOutput>, string>)
      requires forall e :: e in search(Unfiltered) ==> allocated(e)
      modifies redis, api
      modifies set e | e in search(Unfiltered)
      modifies set e | e in search(Unfiltered) :: e.notification
      ensures r == PageOutcome(search(Unfiltered), old(State()), Behaviour(), parsePrice)
      ensures State() == ResolveAll(Ids(search(Unfiltered)), old(State()), Behaviour()).after
      ensures forall e :: e in search(Unfiltered) ==>
        e.price == FinalPrice(search(Unfiltered), ResolveAll(Ids(search(Unfiltered)), old(State()), Behaviour()).outcomes,
                              e, old(e.price), parsePrice)
      ensures forall e :: e in search(Unfiltered) ==> e.notification.errors == old(e.notification.errors)
    {
      var params := EventRepository.Create(FilterProp(AsProps(input)), dateText);
      InputHasNoFilter(input, dateText);
      var page := search(params);
      r := ToOutput(page);
    }
  }
}
