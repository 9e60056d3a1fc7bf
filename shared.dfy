/** Value objects shared by the three aggregates (core/shared/domain). */
module Shared {

  /** The `id` string of a `Uuid` value object (EventId, TicketId and UserId
      differ only in name). Generating one is left to the caller. */
  datatype Uuid = Uuid(id: string)

  /** A point in time known to be valid, in milliseconds since the epoch
      (`created_at`, always `new Date()` or a caller-supplied instant). */
  type Timestamp = int

  /** A JavaScript `Date` that a validator inspects: either a valid instant or
      an "Invalid Date" (a `Date` whose time value is NaN). */
  datatype Date = Date(time: int) | InvalidDate

  /** class-validator's `isDate`: a `Date` instance whose time is a number. */
  predicate IsDate(d: Date) {
    d.Date?
  }
}
