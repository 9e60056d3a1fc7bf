/** `EventOutputMapper` (event-output.ts): the flat record a use case returns. */
module EventOutputMapper {
  import opened Wrappers
  import opened Shared
  import EventAggregate

  /** `EventOutput`: exactly eight fields. */
  datatype EventOutput = EventOutput(
    id: string,
    title: string,
    description: Option<string>,
    date: Date,
    location: string,
    price: int,
    totalAvailableTickets: int,
    createdAt: Timestamp)

  /** `toOutput`: the id string of the entity id, the current price and the
      other attributes unchanged. */
  function ToOutput(e: EventAggregate.Event): (r: EventOutput)
    reads e
    ensures r.id == e.EntityId().id
    ensures r.price == e.price
    ensures r.title == e.title && r.description == e.description && r.date == e.date
    ensures r.location == e.location && r.totalAvailableTickets == e.totalAvailableTickets
    ensures r.createdAt == e.createdAt
  {
    EventOutput(e.eventId.id, e.title, e.description, e.date, e.location, e.price,
                e.totalAvailableTickets, e.createdAt)
  }

  /** The output and `toJSON` agree field for field: `id` is `toJSON`'s
      `event_id`, and two events with the same JSON have the same output. */
  lemma {:induction false} OutputMatchesJson(e: EventAggregate.Event, f: EventAggregate.Event)
    ensures ToOutput(e).id == e.ToJSON().eventId
    ensures ToOutput(e).price == e.ToJSON().price
    ensures e.ToJSON() == f.ToJSON() ==> ToOutput(e) == ToOutput(f)
  {
  }
}
