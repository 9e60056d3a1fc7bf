/** The Event aggregate (event.aggregate.ts): identity, business attributes
    and the owned notification that validation fills. Only `price` is ever
    reassigned, so every other attribute is a constant of the object. */
module EventAggregate {
  import opened Wrappers
  import opened Shared
  import opened Validation
  import EventValidator

  /** `EventConstructorProps`: the id and the creation time are optional. */
  datatype EventProps = EventProps(
    eventId: Option<Uuid>,
    title: string,
    description: Option<string>,
    date: Date,
    location: string,
    price: int,
    totalAvailableTickets: int,
    createdAt: Option<Timestamp>)

  /** `EventCreateCommand`: what a caller supplies to `Event.create`. */
  datatype EventCreateCommand = EventCreateCommand(
    title: string,
    description: Option<string>,
    date: Date,
    location: string,
    price: int,
    totalAvailableTickets: int)

  /** The plain record `toJSON` returns. */
  datatype EventJson = EventJson(
    eventId: string,
    title: string,
    description: Option<string>,
    date: Date,
    location: string,
    price: int,
    totalAvailableTickets: int,
    createdAt: Timestamp)

  /** The properties the validator inspects, for a given set of attributes. */
  function RulesOf(title: string, description: Option<string>, date: Date, location: string): EventValidator.EventRules {
    EventValidator.EventRules(title, description, date, location)
  }

  /** The errors a default validation of `cmd`'s attributes reports. */
  function CommandErrors(cmd: EventCreateCommand): seq<FieldError> {
    EventValidator.Errors(RulesOf(cmd.title, cmd.description, cmd.date, cmd.location), EventValidator.Fields(None))
  }

  /** `Event.create` validates twice, so a command leaves errors behind
      exactly when it breaks a rule of the `title`, `date` or `location` group. */
  lemma {:induction false} CreateErrorsIffInvalid(cmd: EventCreateCommand)
    ensures CommandErrors(cmd) + CommandErrors(cmd) == [] <==>
      && cmd.title != "" && |cmd.title| <= EventValidator.TitleMaxLength
      && IsDate(cmd.date)
      && cmd.location != "" && |cmd.location| <= EventValidator.LocationMaxLength
  {
    EventValidator.DefaultFieldGroups(None);
    var fs := EventValidator.Fields(None);
    assert "title" in fs && "date" in fs && "location" in fs && "description" !in fs;
  }

  class Event {
    const eventId: Uuid
    const title: string
    const description: Option<string>
    const date: Date
    const location: string
    var price: int
    const totalAvailableTickets: int
    const createdAt: Timestamp
    const notification: Notification

    /** The properties of this event the validator inspects. */
    function Rules(): EventValidator.EventRules {
      RulesOf(title, description, date, location)
    }

    /** The constructor keeps a supplied id, else takes the fresh one; keeps a
        supplied creation time, else takes `now`; and then runs a default
        validation, so the new notification holds exactly its errors. */
    constructor(props: EventProps, freshId: Uuid, now: Timestamp)
      ensures props.eventId.Some? ==> eventId == props.eventId.value
      ensures props.eventId.None? ==> eventId == freshId
      ensures title == props.title && description == props.description && date == props.date
      ensures location == props.location && price == props.price
      ensures totalAvailableTickets == props.totalAvailableTickets
      ensures props.createdAt.Some? ==> createdAt == props.createdAt.value
      ensures props.createdAt.None? ==> createdAt == now
      ensures fresh(notification)
      ensures notification.errors == EventValidator.Errors(Rules(), EventValidator.Fields(None))
    {
      eventId := props.eventId.GetOr(freshId);
      title := props.title;
      description := props.description;
      date := props.date;
      location := props.location;
      price := props.price;
      totalAvailableTickets := props.totalAvailableTickets;
      createdAt := props.createdAt.GetOr(now);
      notification := new Notification();
      new;
      Validate(None);
    }

    /** `Event.create`: stamps the creation time with `now`, constructs (which
        validates) and validates once more, so the default errors are
        recorded twice. */
    static method Create(cmd: EventCreateCommand, freshId: Uuid, now: Timestamp) returns (e: Event)
      ensures fresh(e) && fresh(e.notification)
      ensures e.eventId == freshId && e.createdAt == now
      ensures e.title == cmd.title && e.description == cmd.description && e.date == cmd.date
      ensures e.location == cmd.location && e.price == cmd.price
      ensures e.totalAvailableTickets == cmd.totalAvailableTickets
      ensures e.notification.errors == CommandErrors(cmd) + CommandErrors(cmd)
    {
      var props := EventProps(None, cmd.title, cmd.description, cmd.date, cmd.location,
                              cmd.price, cmd.totalAvailableTickets, Some(now));
      e := new Event(props, freshId, now);
      e.Validate(None);
    }

    /** `updatePrice`: sets the price and revalidates the `price` group only,
        which has no rules, so the notification is left as it was. */
    method UpdatePrice(newPrice: int)
      modifies this, notification
      ensures price == newPrice
      ensures notification.errors == old(notification.errors)
    {
      price := newPrice;
      Validate(Some(["price"]));
      EventValidator.PriceGroupHasNoRules(Rules());
    }

    /** `validate(fields?)`: appends the errors of the selected groups. */
    method Validate(fields: Option<seq<string>>)
      modifies notification
      ensures notification.errors == old(notification.errors) + EventValidator.Errors(Rules(), EventValidator.Fields(fields))
    {
      var _ := EventValidator.Validate(notification, Rules(), fields);
    }

    /** `entity_id`: the event's identity. */
    function EntityId(): (r: Uuid)
      ensures r == eventId
    {
      eventId
    }

    /** `toJSON`: the attributes as a plain record; the id is the string of
        the entity id and the price is the current one. */
    function ToJSON(): (r: EventJson)
      reads this
      ensures r.eventId == EntityId().id
      ensures r.price == price
      ensures r.title == title && r.description == description && r.date == date
      ensures r.location == location && r.totalAvailableTickets == totalAvailableTickets
      ensures r.createdAt == createdAt
    {
      EventJson(eventId.id, title, description, date, location, price, totalAvailableTickets, createdAt)
    }
  }

  /** A default validation of an event whose title is longer than 255
      characters records the title maximum-length message. */
  lemma LongTitleRecorded(cmd: EventCreateCommand)
    requires |cmd.title| > EventValidator.TitleMaxLength
    ensures FieldError("title", EventValidator.TitleTooLong) in CommandErrors(cmd)
  {
    EventValidator.LongTitleReported(RulesOf(cmd.title, cmd.description, cmd.date, cmd.location));
  }
}
