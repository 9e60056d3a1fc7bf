/** The rules an Event must satisfy (event.validator.ts). Each rule is
    declared in a group named after its property; a validation run checks the
    groups it is given, by default `title`, `date` and `location`. */
module EventValidator {
  import opened Wrappers
  import opened Shared
  import opened Validation

  const TitleMaxLength := 255
  const DescriptionMaxLength := 1000
  const LocationMaxLength := 255

  const TitleEmpty := "title should not be empty"
  const TitleTooLong := "title must be shorter than or equal to 255 characters"
  const DescriptionTooLong := "description must be shorter than or equal to 1000 characters"
  const DateInvalid := "date must be a Date instance"
  const LocationEmpty := "location should not be empty"
  const LocationTooLong := "location must be shorter than or equal to 255 characters"

  /** The groups validated when no field list, or an empty one, is given.
      `price` and `totalAvailableTickets` have no rules and are not among them. */
  const DefaultFields: seq<string> := ["title", "date", "location"]

  /** The properties of an Event that the rules look at (`EventRules`). */
  datatype EventRules = EventRules(title: string, description: Option<string>, date: Date, location: string)

  /** `@IsNotEmpty` and `@MaxLength(255)` on `title`. */
  function TitleMessages(title: string): (r: seq<string>)
    ensures r == [] <==> title != "" && |title| <= TitleMaxLength
    ensures TitleTooLong in r <==> |title| > TitleMaxLength
    ensures TitleEmpty in r <==> title == ""
  {
    (if title == "" then [TitleEmpty] else []) + (if |title| > TitleMaxLength then [TitleTooLong] else [])
  }

  /** `@IsOptional` and `@MaxLength(1000)` on `description`: `null` passes. */
  function DescriptionMessages(description: Option<string>): (r: seq<string>)
    ensures r == [] <==> description.None? || |description.value| <= DescriptionMaxLength
  {
    if description.Some? && |description.value| > DescriptionMaxLength then [DescriptionTooLong] else []
  }

  /** `@IsDate` on `date`. */
  function DateMessages(date: Date): (r: seq<string>)
    ensures r == [] <==> IsDate(date)
  {
    if IsDate(date) then [] else [DateInvalid]
  }

  /** `@IsNotEmpty` and `@MaxLength(255)` on `location`. */
  function LocationMessages(location: string): (r: seq<string>)
    ensures r == [] <==> location != "" && |location| <= LocationMaxLength
  {
    (if location == "" then [LocationEmpty] else []) + (if |location| > LocationMaxLength then [LocationTooLong] else [])
  }

  /** Every error the rules of the groups in `fields` report about `rules`;
      a group without rules (such as `price`) reports nothing. */
  function Errors(rules: EventRules, fields: seq<string>): (r: seq<FieldError>)
    ensures forall i :: 0 <= i < |r| ==> r[i].field in fields
    ensures forall i :: 0 <= i < |r| ==> r[i].field in {"title", "description", "date", "location"}
    ensures r == [] <==>
      && ("title" in fields ==> rules.title != "" && |rules.title| <= TitleMaxLength)
      && ("description" in fields ==> rules.description.None? || |rules.description.value| <= DescriptionMaxLength)
      && ("date" in fields ==> IsDate(rules.date))
      && ("location" in fields ==> rules.location != "" && |rules.location| <= LocationMaxLength)
  {
    (if "title" in fields then Tagged("title", TitleMessages(rules.title)) else [])
    + (if "description" in fields then Tagged("description", DescriptionMessages(rules.description)) else [])
    + (if "date" in fields then Tagged("date", DateMessages(rules.date)) else [])
    + (if "location" in fields then Tagged("location", LocationMessages(rules.location)) else [])
  }

  /** The groups `EventValidator.validate` checks for a field list. */
  function Fields(fields: Option<seq<string>>): seq<string> {
    FieldsOrDefault(fields, DefaultFields)
  }

  /** Without a field list, or with an empty one, exactly the `title`, `date`
      and `location` groups are checked; a non-empty list is used as given. */
  lemma DefaultFieldGroups(fields: Option<seq<string>>)
    ensures fields.None? || fields.value == [] ==>
      (forall f :: f in Fields(fields) <==> f == "title" || f == "date" || f == "location")
    ensures fields.Some? && fields.value != [] ==> Fields(fields) == fields.value
  {
  }

  /** Validating only the `price` group never reports anything. */
  lemma PriceGroupHasNoRules(rules: EventRules)
    ensures Errors(rules, ["price"]) == []
  {
  }

  /** A title longer than 255 characters is reported under `title` with the
      maximum-length message by a default validation. */
  lemma LongTitleReported(rules: EventRules)
    requires |rules.title| > TitleMaxLength
    ensures FieldError("title", TitleTooLong) in Errors(rules, Fields(None))
  {
    var m := TitleMessages(rules.title);
    var k :| 0 <= k < |m| && m[k] == TitleTooLong;
    assert Errors(rules, Fields(None))[k] == FieldError("title", TitleTooLong);
  }

  /** `EventValidator.validate`: appends the errors of the selected groups to
      `n` and answers whether there was none. */
  method Validate(n: Notification, rules: EventRules, fields: Option<seq<string>>) returns (ok: bool)
    modifies n
    ensures n.errors == old(n.errors) + Errors(rules, Fields(fields))
    ensures ok <==> Errors(rules, Fields(fields)) == []
  {
    ok := ValidateInto(n, Errors(rules, Fields(fields)));
  }
}
