/** `CreateUserUseCase` (create-user.use-case.ts): creates a user and stores
    it only when it passes validation. */
module CreateUser {
  import opened Wrappers
  import opened Shared
  import opened Validation
  import opened UserAggregate
  import UserOutputMapper
  import UserRepository

  class CreateUserUseCase {
    const repo: UserRepository.UserInMemoryRepository

    constructor(repo: UserRepository.UserInMemoryRepository)
      ensures this.repo == repo
    {
      this.repo := repo;
    }

    /** `execute`: `User.create`, then either the validation errors
        (`EntityValidationError`), with nothing stored, or the new user stored
        once and its output returned. */
    method Execute(input: UserCreateCommand, freshId: Uuid, now: Timestamp, isEmail: string -> bool)
      returns (r: Result<UserOutputMapper.UserOutput, seq<FieldError>>)
      modifies repo
      ensures r.Ok? <==> CommandErrors(input, isEmail) == []
      ensures r.Err? ==> r.error == CommandErrors(input, isEmail) && repo.items == old(repo.items)
      ensures r.Ok? ==>
        && |repo.items| == |old(repo.items)| + 1
        && repo.items[..|old(repo.items)|] == old(repo.items)
        && var u := repo.items[|old(repo.items)|];
           fresh(u) && u.userId == freshId && u.createdAt == now
           && u.name == input.name && u.email == input.email && u.password == input.password
           && r.value == UserOutputMapper.ToOutput(u)
    {
      var entity := User.Create(input, freshId, now, isEmail);
      if entity.notification.HasErrors() {
        return Err(entity.notification.errors);
      }
      repo.Insert(entity);
      r := Ok(UserOutputMapper.ToOutput(entity));
    }
  }
}
