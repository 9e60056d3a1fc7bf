/** `CreateTicketUseCase` (create-ticket.use-case.ts): creates a ticket and
    stores it only when it passes validation. */
module CreateTicket {
  import opened Wrappers
  import opened Shared
  import opened Validation
  import opened TicketAggregate
  import TicketOutputMapper
  import TicketRepository

  class CreateTicketUseCase {
    const repo: TicketRepository.TicketInMemoryRepository

    constructor(repo: TicketRepository.TicketInMemoryRepository)
      ensures this.repo == repo
    {
      this.repo := repo;
    }

    /** `execute`: `Ticket.create`, then either the validation errors
        (`EntityValidationError`), with nothing stored, or the new ticket
        stored once and its output returned. */
    method Execute(input: TicketCreateCommand, freshId: Uuid, now: Timestamp)
      returns (r: Result<TicketOutputMapper.TicketOutput, seq<FieldError>>)
      modifies repo
      ensures r.Ok? <==> CommandErrors(input, now) == []
      ensures r.Err? ==> r.error == CommandErrors(input, now) && repo.items == old(repo.items)
      ensures r.Ok? ==>
        && |repo.items| == |old(repo.items)| + 1
        && repo.items[..|old(repo.items)|] == old(repo.items)
        && var t := repo.items[|old(repo.items)|];
           fresh(t) && t.ticketId == freshId && t.createdAt == now && t.purchaseDate == Date(now)
           && t.event == input.event && t.user == input.user
           && t.price == input.price && t.status == input.status
           && r.value == TicketOutputMapper.ToOutput(t)
    {
      var entity := Ticket.Create(input, freshId, now);
      if entity.notification.HasErrors() {
        return Err(entity.notification.errors);
      }
      repo.Insert(entity);
      r := Ok(TicketOutputMapper.ToOutput(entity));
    }
  }
}
