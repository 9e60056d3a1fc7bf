/** The User aggregate (user.aggregate.ts). No attribute of a user is ever
    reassigned, so they are all constants of the object; the owned
    notification is the only state that changes. */
module UserAggregate {
  import opened Wrappers
  import opened Shared
  import opened Validation
  import UserValidator

  /** `UserConstructorProps`: the id and the creation time are optional. */
  datatype UserProps = UserProps(
    userId: Option<Uuid>,
    name: string,
    email: string,
    password: string,
    createdAt: Option<Timestamp>)

  /** What a caller supplies to `User.create`. */
  datatype UserCreateCommand = UserCreateCommand(name: string, email: string, password: string)

  /** The plain record `toJSON` returns; it includes the password. */
  datatype UserJson = UserJson(userId: string, name: string, email: string, password: string, createdAt: Timestamp)

  /** The errors a default validation of `cmd`'s attributes reports. */
  function CommandErrors(cmd: UserCreateCommand, isEmail: string -> bool): seq<FieldError> {
    UserValidator.Errors(UserValidator.UserRules(cmd.name, cmd.email, cmd.password), UserValidator.Fields(None), isEmail)
  }

  /** `User.create` leaves errors behind exactly when the name is not 1 to
      100 characters long, the e-mail address is not one, or the password is
      not 6 to 100 characters long. */
  lemma {:induction false} CreateErrorsIffInvalid(cmd: UserCreateCommand, isEmail: string -> bool)
    ensures CommandErrors(cmd, isEmail) == [] <==>
      1 <= |cmd.name| <= 100 && isEmail(cmd.email) && 6 <= |cmd.password| <= 100
  {
    UserValidator.DefaultFieldList(None);
    var fs := UserValidator.Fields(None);
    assert "name" in fs && "email" in fs && "password" in fs;
  }

  class User {
    const userId: Uuid
    const name: string
    const email: string
    const password: string
    const createdAt: Timestamp
    const notification: Notification

    function Rules(): UserValidator.UserRules {
      UserValidator.UserRules(name, email, password)
    }

    /** The constructor keeps a supplied id and creation time, else takes
        the fresh id and `now`. It does not validate. */
    constructor(props: UserProps, freshId: Uuid, now: Timestamp)
      ensures props.userId.Some? ==> userId == props.userId.value
      ensures props.userId.None? ==> userId == freshId
      ensures name == props.name && email == props.email && password == props.password
      ensures props.createdAt.Some? ==> createdAt == props.createdAt.value
      ensures props.createdAt.None? ==> createdAt == now
      ensures fresh(notification) && notification.errors == []
    {
      userId := props.userId.GetOr(freshId);
      name := props.name;
      email := props.email;
      password := props.password;
      createdAt := props.createdAt.GetOr(now);
      notification := new Notification();
    }

    /** `User.create`: stamps the creation time with `now` and runs a default
        validation. */
    static method Create(cmd: UserCreateCommand, freshId: Uuid, now: Timestamp, isEmail: string -> bool) returns (u: User)
      ensures fresh(u) && fresh(u.notification)
      ensures u.userId == freshId && u.createdAt == now
      ensures u.name == cmd.name && u.email == cmd.email && u.password == cmd.password
      ensures u.notification.errors == CommandErrors(cmd, isEmail)
    {
      u := new User(UserProps(None, cmd.name, cmd.email, cmd.password, Some(now)), freshId, now);
      u.Validate(None, isEmail);
    }

    /** `validate(fields?)`: appends the errors of the selected fields. */
    method Validate(fields: Option<seq<string>>, isEmail: string -> bool)
      modifies notification
      ensures notification.errors == old(notification.errors) + UserValidator.Errors(Rules(), UserValidator.Fields(fields), isEmail)
    {
      var _ := UserValidator.Validate(notification, Rules(), fields, isEmail);
    }

    /** `entity_id`: the user's identity. */
    function EntityId(): (r: Uuid)
      ensures r == userId
    {
      userId
    }

    /** `toJSON`: every attribute, the password included, with the id as the
        string of the entity id. */
    function ToJSON(): (r: UserJson)
      ensures r.userId == EntityId().id
      ensures r.name == name && r.email == email && r.password == password && r.createdAt == createdAt
    {
      UserJson(userId.id, name, email, password, createdAt)
    }
  }
}
