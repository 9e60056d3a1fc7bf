/** The Ticket aggregate (ticket.aggregate.ts). A ticket refers to the event
    and the user it was bought for; only its `status` is ever reassigned. */
module TicketAggregate {
  import opened Wrappers
  import opened Shared
  import opened Validation
  import TicketValidator
  import EventAggregate
  import UserAggregate

  /** `TicketConstructorProps`: id, purchase date and creation time are optional. */
  datatype TicketProps = TicketProps(
    ticketId: Option<Uuid>,
    event: EventAggregate.Event,
    user: UserAggregate.User,
    purchaseDate: Option<Date>,
    price: int,
    status: string,
    createdAt: Option<Timestamp>)

  /** `TicketCreateCommand`. */
  datatype TicketCreateCommand = TicketCreateCommand(
    event: EventAggregate.Event,
    user: UserAggregate.User,
    price: int,
    status: string)

  /** The plain record `toJSON` returns. */
  datatype TicketJson = TicketJson(
    ticketId: string,
    eventId: string,
    userId: string,
    purchaseDate: Date,
    price: int,
    status: string,
    createdAt: Timestamp)

  /** The errors a default validation of a ticket created from `cmd` at `now`
      reports: the purchase date is `now`, which is always a valid date. */
  function CommandErrors(cmd: TicketCreateCommand, now: Timestamp): seq<FieldError> {
    TicketValidator.Errors(TicketValidator.TicketRules(cmd.status, cmd.price, Date(now)), TicketValidator.Fields(None))
  }

  /** `Ticket.create` leaves errors behind exactly when the status is not a
      `TicketStatus` value or the price is negative. */
  lemma {:induction false} CreateErrorsIffInvalid(cmd: TicketCreateCommand, now: Timestamp)
    ensures CommandErrors(cmd, now) == [] <==>
      TicketValidator.ParseStatus(cmd.status).Some? && cmd.price >= 0
  {
    TicketValidator.DefaultFieldList(None);
    var fs := TicketValidator.Fields(None);
    assert "status" in fs && "price" in fs && "purchaseDate" in fs;
  }

  class Ticket {
    const ticketId: Uuid
    const event: EventAggregate.Event
    const user: UserAggregate.User
    const purchaseDate: Date
    const price: int
    var status: string
    const createdAt: Timestamp
    const notification: Notification

    function Rules(): TicketValidator.TicketRules
      reads this
    {
      TicketValidator.TicketRules(status, price, purchaseDate)
    }

    /** The constructor keeps what is supplied and takes the fresh id and
        `now` for what is not. It does not validate. */
    constructor(props: TicketProps, freshId: Uuid, now: Timestamp)
      ensures props.ticketId.Some? ==> ticketId == props.ticketId.value
      ensures props.ticketId.None? ==> ticketId == freshId
      ensures event == props.event && user == props.user
      ensures props.purchaseDate.Some? ==> purchaseDate == props.purchaseDate.value
      ensures props.purchaseDate.None? ==> purchaseDate == Date(now)
      ensures price == props.price && status == props.status
      ensures props.createdAt.Some? ==> createdAt == props.createdAt.value
      ensures props.createdAt.None? ==> createdAt == now
      ensures fresh(notification) && notification.errors == []
    {
      ticketId := props.ticketId.GetOr(freshId);
      event := props.event;
      user := props.user;
      purchaseDate := props.purchaseDate.GetOr(Date(now));
      price := props.price;
      status := props.status;
      createdAt := props.createdAt.GetOr(now);
      notification := new Notification();
    }

    /** `Ticket.create`: stamps the creation time and the purchase date with
        `now` and runs a default validation. */
    static method Create(cmd: TicketCreateCommand, freshId: Uuid, now: Timestamp) returns (t: Ticket)
      ensures fresh(t) && fresh(t.notification)
      ensures t.ticketId == freshId && t.createdAt == now && t.purchaseDate == Date(now)
      ensures t.event == cmd.event && t.user == cmd.user && t.price == cmd.price && t.status == cmd.status
      ensures t.notification.errors == CommandErrors(cmd, now)
    {
      t := new Ticket(TicketProps(None, cmd.event, cmd.user, None, cmd.price, cmd.status, Some(now)), freshId, now);
      t.Validate(None);
    }

    /** `updateStatus`: sets the status and revalidates the `status` field
        only, which records the enum message when the new status is not a
        `TicketStatus` value. */
    method UpdateStatus(newStatus: string)
      modifies this, notification
      ensures status == newStatus
      ensures notification.errors == old(notification.errors) +
        (if TicketValidator.ParseStatus(newStatus).Some? then []
         else [FieldError("status", TicketValidator.StatusInvalid)])
    {
      status := newStatus;
      Validate(Some(["status"]));
    }

    /** `validate(fields?)`: appends the errors of the selected fields. */
    method Validate(fields: Option<seq<string>>)
      modifies notification
      ensures notification.errors == old(notification.errors) + TicketValidator.Errors(Rules(), TicketValidator.Fields(fields))
    {
      var _ := TicketValidator.Validate(notification, Rules(), fields);
    }

    /** `entity_id`: the ticket's identity. */
    function EntityId(): (r: Uuid)
      ensures r == ticketId
    {
      ticketId
    }

    /** `toJSON`: the ticket's id string, the ids of the event and the user it
        refers to, and its other attributes as they are now. */
    function ToJSON(): (r: TicketJson)
      reads this
      ensures r.ticketId == EntityId().id
      ensures r.eventId == event.EntityId().id && r.userId == user.EntityId().id
      ensures r.purchaseDate == purchaseDate && r.price == price && r.status == status && r.createdAt == createdAt
    {
      TicketJson(ticketId.id, event.eventId.id, user.userId.id, purchaseDate, price, status, createdAt)
    }
  }
}
