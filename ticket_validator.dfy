/** The rules a Ticket must satisfy (ticket.validator.ts). */
module TicketValidator {
  import opened Wrappers
  import opened Shared
  import opened Validation

  const StatusInvalid := "Status must be a valid TicketStatus enum value"
  const PriceNegative := "Price must be a positive number"
  const PurchaseDateInvalid := "Purchase date must be a valid date"

  /** The fields validated when no field list, or an empty one, is given. */
  const DefaultFields: seq<string> := ["status", "price", "purchaseDate"]

  /** `TicketStatus`: the three states a ticket can be in. */
  datatype TicketStatus = Active | Cancelled | Used {
    /** The string value of the enum member. */
    function Value(): string {
      match this
      case Active => "active"
      case Cancelled => "cancelled"
      case Used => "used"
    }
  }

  /** The enum member whose value is `s`, if any. */
  function ParseStatus(s: string): (r: Option<TicketStatus>)
    ensures r.Some? ==> r.value.Value() == s
    ensures r.None? <==> s != "active" && s != "cancelled" && s != "used"
  {
    if s == "active" then Some(Active)
    else if s == "cancelled" then Some(Cancelled)
    else if s == "used" then Some(Used)
    else None
  }

  /** Every status parses back from its own value. */
  lemma StatusRoundTrip(st: TicketStatus)
    ensures ParseStatus(st.Value()) == Some(st)
  {
  }

  /** The properties of a Ticket that the rules look at (`TicketRules`). */
  datatype TicketRules = TicketRules(status: string, price: int, purchaseDate: Date)

  /** `@IsEnum(TicketStatus)` on `status`. */
  function StatusMessages(status: string): (r: seq<string>)
    ensures r == [] <==> ParseStatus(status).Some?
  {
    if ParseStatus(status).Some? then [] else [StatusInvalid]
  }

  /** `@IsNumber` and `@Min(0)` on `price`: zero is accepted. */
  function PriceMessages(price: int): (r: seq<string>)
    ensures r == [] <==> price >= 0
  {
    if price < 0 then [PriceNegative] else []
  }

  /** `@IsDate` on `purchaseDate`. */
  function PurchaseDateMessages(purchaseDate: Date): (r: seq<string>)
    ensures r == [] <==> IsDate(purchaseDate)
  {
    if IsDate(purchaseDate) then [] else [PurchaseDateInvalid]
  }

  /** Every error the rules of the fields in `fields` report about `rules`. */
  function Errors(rules: TicketRules, fields: seq<string>): (r: seq<FieldError>)
    ensures forall i :: 0 <= i < |r| ==> r[i].field in fields
    ensures r == [] <==>
      && ("status" in fields ==> ParseStatus(rules.status).Some?)
      && ("price" in fields ==> rules.price >= 0)
      && ("purchaseDate" in fields ==> IsDate(rules.purchaseDate))
  {
    (if "status" in fields then Tagged("status", StatusMessages(rules.status)) else [])
    + (if "price" in fields then Tagged("price", PriceMessages(rules.price)) else [])
    + (if "purchaseDate" in fields then Tagged("purchaseDate", PurchaseDateMessages(rules.purchaseDate)) else [])
  }

  /** The fields `TicketValidator.validate` checks for a field list. */
  function Fields(fields: Option<seq<string>>): seq<string> {
    FieldsOrDefault(fields, DefaultFields)
  }

  /** Without a field list, or with an empty one, exactly `status`, `price`
      and `purchaseDate` are checked; a non-empty list is used as given. */
  lemma DefaultFieldList(fields: Option<seq<string>>)
    ensures fields.None? || fields.value == [] ==>
      (forall f :: f in Fields(fields) <==> f == "status" || f == "price" || f == "purchaseDate")
    ensures fields.Some? && fields.value != [] ==> Fields(fields) == fields.value
  {
  }

  /** A status outside the enum is reported with the enum message. */
  lemma UnknownStatusReported(rules: TicketRules, fields: seq<string>)
    requires "status" in fields && ParseStatus(rules.status).None?
    ensures FieldError("status", StatusInvalid) in Errors(rules, fields)
  {
    assert Errors(rules, fields)[0] == FieldError("status", StatusInvalid);
  }

  /** A negative price is reported with the minimum message. */
  lemma NegativePriceReported(rules: TicketRules, fields: seq<string>)
    requires "price" in fields && rules.price < 0
    ensures FieldError("price", PriceNegative) in Errors(rules, fields)
  {
    var k := if "status" in fields then |StatusMessages(rules.status)| else 0;
    assert Errors(rules, fields)[k] == FieldError("price", PriceNegative);
  }

  /** `TicketValidator.validate`: appends the errors of the selected fields to
      `n` and answers whether there was none. */
  method Validate(n: Notification, rules: TicketRules, fields: Option<seq<string>>) returns (ok: bool)
    modifies n
    ensures n.errors == old(n.errors) + Errors(rules, Fields(fields))
    ensures ok <==> Errors(rules, Fields(fields)) == []
  {
    ok := ValidateInto(n, Errors(rules, Fields(fields)));
  }
}
