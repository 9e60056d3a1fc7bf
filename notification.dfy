/** Field-scoped validation errors (core/shared/domain/validators). */
module Validation {
  import opened Wrappers

  /** One message recorded against one field. */
  datatype FieldError = FieldError(field: string, message: string)

  /** The error collector every aggregate owns. Messages are appended and
      never removed; `errors` keeps them in the order they were added. */
  class Notification {
    var errors: seq<FieldError>

    constructor()
      ensures errors == []
    {
      errors := [];
    }

    method AddError(message: string, field: string)
      modifies this
      ensures errors == old(errors) + [FieldError(field, message)]
    {
      errors := errors + [FieldError(field, message)];
    }

    predicate HasErrors()
      reads this
    {
      errors != []
    }
  }

  /** Each message of `messages`, recorded against `field`. */
  function Tagged(field: string, messages: seq<string>): (r: seq<FieldError>)
    ensures |r| == |messages|
    ensures forall i :: 0 <= i < |r| ==> r[i] == FieldError(field, messages[i])
  {
    seq(|messages|, i requires 0 <= i < |messages| => FieldError(field, messages[i]))
  }

  /** The field list a validator uses: `fields?.length ? fields : defaults`. */
  function FieldsOrDefault(fields: Option<seq<string>>, defaults: seq<string>): (r: seq<string>)
    ensures fields.None? || fields.value == [] ==> r == defaults
    ensures fields.Some? && fields.value != [] ==> r == fields.value
  {
    if fields.Some? && |fields.value| > 0 then fields.value else defaults
  }

  /** Records every error found by a rule check in `n`, in order, and answers
      whether there was none (the shared class-validator adapter). */
  method ValidateInto(n: Notification, found: seq<FieldError>) returns (ok: bool)
    modifies n
    ensures n.errors == old(n.errors) + found
    ensures ok <==> found == []
  {
    for i := 0 to |found|
      invariant n.errors == old(n.errors) + found[..i]
    {
      n.AddError(found[i].message, found[i].field);
    }
    ok := |found| == 0;
  }
}
