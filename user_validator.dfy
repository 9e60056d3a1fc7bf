/** The rules a User must satisfy (user.validator.ts). Whether a string is an
    e-mail address is decided by class-validator's `isEmail`, which is not part
    of this model: it is the parameter `isEmail`. */
module UserValidator {
  import opened Wrappers
  import opened Validation

  const NameEmpty := "name should not be empty"
  const NameLength := "Name must be between 1 and 100 characters"
  const EmailInvalid := "Email must be a valid email address"
  const PasswordEmpty := "password should not be empty"
  const PasswordLength := "Password must be at least 6 characters long"

  /** The fields validated when no field list, or an empty one, is given. */
  const DefaultFields: seq<string> := ["name", "email", "password"]

  /** The properties of a User that the rules look at (`UserRules`). */
  datatype UserRules = UserRules(name: string, email: string, password: string)

  /** `@IsString`, `@IsNotEmpty` and `@Length(1, 100)` on `name`. */
  function NameMessages(name: string): (r: seq<string>)
    ensures r == [] <==> 1 <= |name| <= 100
  {
    (if name == "" then [NameEmpty] else []) + (if !(1 <= |name| <= 100) then [NameLength] else [])
  }

  /** `@IsEmail` on `email`. */
  function EmailMessages(email: string, isEmail: string -> bool): (r: seq<string>)
    ensures r == [] <==> isEmail(email)
  {
    if isEmail(email) then [] else [EmailInvalid]
  }

  /** `@IsString`, `@IsNotEmpty` and `@Length(6, 100)` on `password`; the
      length message is the same for a password that is too long. */
  function PasswordMessages(password: string): (r: seq<string>)
    ensures r == [] <==> 6 <= |password| <= 100
    ensures PasswordLength in r <==> !(6 <= |password| <= 100)
  {
    (if password == "" then [PasswordEmpty] else []) + (if !(6 <= |password| <= 100) then [PasswordLength] else [])
  }

  /** Every error the rules of the fields in `fields` report about `rules`. */
  function Errors(rules: UserRules, fields: seq<string>, isEmail: string -> bool): (r: seq<FieldError>)
    ensures forall i :: 0 <= i < |r| ==> r[i].field in fields
    ensures r == [] <==>
      && ("name" in fields ==> 1 <= |rules.name| <= 100)
      && ("email" in fields ==> isEmail(rules.email))
      && ("password" in fields ==> 6 <= |rules.password| <= 100)
  {
    (if "name" in fields then Tagged("name", NameMessages(rules.name)) else [])
    + (if "email" in fields then Tagged("email", EmailMessages(rules.email, isEmail)) else [])
    + (if "password" in fields then Tagged("password", PasswordMessages(rules.password)) else [])
  }

  /** The fields `UserValidator.validate` checks for a field list. */
  function Fields(fields: Option<seq<string>>): seq<string> {
    FieldsOrDefault(fields, DefaultFields)
  }

  /** Without a field list, or with an empty one, exactly `name`, `email` and
      `password` are checked; a non-empty list is used as given. */
  lemma DefaultFieldList(fields: Option<seq<string>>)
    ensures fields.None? || fields.value == [] ==>
      (forall f :: f in Fields(fields) <==> f == "name" || f == "email" || f == "password")
    ensures fields.Some? && fields.value != [] ==> Fields(fields) == fields.value
  {
  }

  /** An address `isEmail` rejects is reported with the e-mail message. */
  lemma InvalidEmailReported(rules: UserRules, fields: seq<string>, isEmail: string -> bool)
    requires "email" in fields && !isEmail(rules.email)
    ensures FieldError("email", EmailInvalid) in Errors(rules, fields, isEmail)
  {
    var k := if "name" in fields then |NameMessages(rules.name)| else 0;
    assert Errors(rules, fields, isEmail)[k] == FieldError("email", EmailInvalid);
  }

  /** `UserValidator.validate`: appends the errors of the selected fields to
      `n` and answers whether there was none. */
  method Validate(n: Notification, rules: UserRules, fields: Option<seq<string>>, isEmail: string -> bool)
    returns (ok: bool)
    modifies n
    ensures n.errors == old(n.errors) + Errors(rules, Fields(fields), isEmail)
    ensures ok <==> Errors(rules, Fields(fields), isEmail) == []
  {
    ok := ValidateInto(n, Errors(rules, Fields(fields), isEmail));
  }
}
