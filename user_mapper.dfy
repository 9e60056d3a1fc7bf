/** `UserModelMapper` (user-mapper.ts): between a User and its stored
    document. The document's `_id` is read back through the `id` string the
    document model exposes, so both are the one field `id` here. */
module UserModelMapper {
  import opened Wrappers
  import opened Shared
  import opened Validation
  import UserValidator
  import opened UserAggregate

  /** The stored document: id, name, e-mail, password and creation time. */
  datatype UserModel = UserModel(id: string, name: string, email: string, password: string, createdAt: Timestamp)

  /** `toModel`: the user's id string and its other attributes unchanged. */
  function ToModel(u: User): (r: UserModel)
    ensures r.id == u.EntityId().id
    ensures r.name == u.name && r.email == u.email && r.password == u.password && r.createdAt == u.createdAt
  {
    UserModel(u.userId.id, u.name, u.email, u.password, u.createdAt)
  }

  /** The properties the validator inspects, for a stored document. */
  function ModelRules(m: UserModel): UserValidator.UserRules {
    UserValidator.UserRules(m.name, m.email, m.password)
  }

  /** The document of a user carries the properties the validator inspects. */
  lemma {:induction false} ModelKeepsRules(u: User)
    ensures ModelRules(ToModel(u)) == u.Rules()
  {
  }

  /** `toEntity`: rebuilds the user with the document's id and attributes,
      validates it, and fails with the errors found (`LoadEntityError`) when
      there are any. The rebuilt user's document is the one it came from. */
  method ToEntity(m: UserModel, isEmail: string -> bool) returns (r: Result<User, seq<FieldError>>)
    ensures var errors := UserValidator.Errors(ModelRules(m), UserValidator.Fields(None), isEmail);
      && (r.Ok? <==> errors == [])
      && (r.Err? ==> r.error == errors)
    ensures r.Ok? ==> fresh(r.value) && ToModel(r.value) == m && r.value.userId == Uuid(m.id)
    ensures r.Ok? ==> r.value.notification.errors == []
  {
    var u := new User(UserProps(Some(Uuid(m.id)), m.name, m.email, m.password, Some(m.createdAt)), Uuid(m.id), m.createdAt);
    u.Validate(None, isEmail);
    if u.notification.HasErrors() {
      return Err(u.notification.errors);
    }
    r := Ok(u);
  }

  /** A user read back from the document of a user that passes validation
      has the same id, name, e-mail, password and creation time. */
  method ReloadUser(u: User, isEmail: string -> bool) returns (r: Result<User, seq<FieldError>>)
    requires UserValidator.Errors(u.Rules(), UserValidator.Fields(None), isEmail) == []
    ensures r.Ok?
    ensures r.value.userId == u.userId && r.value.name == u.name && r.value.email == u.email
    ensures r.value.password == u.password && r.value.createdAt == u.createdAt
  {
    ModelKeepsRules(u);
    r := ToEntity(ToModel(u), isEmail);
  }
}
