/** `UserOutputMapper` (user-output.ts): what a use case returns for a user. */
module UserOutputMapper {
  import opened Shared
  import UserAggregate

  /** `UserOutput`: exactly four fields; there is no password field. */
  datatype UserOutput = UserOutput(userId: string, name: string, email: string, createdAt: Timestamp)

  /** `toOutput`: picks the id, name, e-mail and creation time out of
      `toJSON`, leaving the password behind. */
  function ToOutput(u: UserAggregate.User): (r: UserOutput)
    ensures r.userId == u.ToJSON().userId && r.userId == u.EntityId().id
    ensures r.name == u.name && r.email == u.email && r.createdAt == u.createdAt
  {
    var json := u.ToJSON();
    UserOutput(json.userId, json.name, json.email, json.createdAt)
  }

  /** The password never shows in the output: two users that differ at most
      in their password have the same output. */
  lemma {:induction false} PasswordNotExposed(u: UserAggregate.User, v: UserAggregate.User)
    requires u.userId == v.userId && u.name == v.name && u.email == v.email && u.createdAt == v.createdAt
    ensures ToOutput(u) == ToOutput(v)
  {
  }

  /** The output loses nothing of `toJSON` but the password: it can be put
      back together from the output and the password. */
  lemma {:induction false} OutputPlusPasswordIsJson(u: UserAggregate.User)
    ensures var out := ToOutput(u);
      UserAggregate.UserJson(out.userId, out.name, out.email, u.password, out.createdAt) == u.ToJSON()
  {
  }
}
