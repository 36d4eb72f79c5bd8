/** `registerUser`: one user per telegram id, created with a fresh API key. */
module RegisterUser {
  import opened Wrappers
  import opened Decimal
  import opened Errors
  import opened UserAgg
  import OrderedMap
  import UserRepo

  datatype RegisterResult = RegisterResult(outcome: Result<string, Thrown>, users: UserRepo.UserStore)

  /** The props `UserAggregate.create(telegramId)` amounts to: no id, no keys, no
      balance, so `User.create` takes its brand new branch. */
  function NewUserInput(telegramId: int): (props: UserInput)
    ensures IsFreshRequest(props) && props.telegramId == telegramId && props.tokenBalance.None?
  {
    UserInput("", telegramId, None, [], false)
  }

  /** `registerUser({telegramId})`: refuses a telegram id some stored user already
      has, otherwise saves a brand new user and returns its raw API key. */
  function RegisterUser(users: UserRepo.UserStore, telegramId: int, f: CreateFresh, hash: string -> string): (r: RegisterResult)
    ensures UserRepo.FindByTelegramId(users, telegramId).Some? ==>
      r == RegisterResult(Failure(Domain(DomainError(UserAlreadyExists, IntToString(telegramId)))), users)
    ensures UserRepo.FindByTelegramId(users, telegramId).None? ==> (
      var created := CreateUser(NewUserInput(telegramId), f, hash);
      && r.outcome == Success(created.generatedKey.value)
      && r.users == UserRepo.Save(users, created.user))
  {
    match UserRepo.FindByTelegramId(users, telegramId)
    case Some(_) => RegisterResult(Failure(Domain(DomainError(UserAlreadyExists, IntToString(telegramId)))), users)
    case None =>
      var created := CreateUser(NewUserInput(telegramId), f, hash);
      RegisterResult(Success(created.generatedKey.value), UserRepo.Save(users, created.user))
  }

  /** A successful registration stores exactly one user with that telegram id,
      found by it afterwards; the user has one key, ACTIVE, accepting the returned
      raw key, which starts with "sk-"; the balance is the 1500 bonus; no other
      stored user changes unless it shared the freshly drawn user id. */
  lemma RegisteredUserIsFound(users: UserRepo.UserStore, telegramId: int, f: CreateFresh, hash: string -> string)
    requires UserRepo.FindByTelegramId(users, telegramId).None?
    ensures var r := RegisterUser(users, telegramId, f, hash);
      && r.outcome.Success?
      && var u := UserRepo.FindByTelegramId(r.users, telegramId);
      && u.Some? && u.value.id == f.userId
      && |u.value.apiKeys| == 1 && u.value.apiKeys[0].status == Active
      && IsApiKeyValid(u.value, r.outcome.value, hash)
      && r.outcome.value[..|KeyPrefix|] == KeyPrefix
      && u.value.tokenBalance == 1500.0 && !u.value.isLocked
      && (forall id :: id != f.userId ==> UserRepo.FindById(r.users, id) == UserRepo.FindById(users, id))
  {
    var created := CreateUser(NewUserInput(telegramId), f, hash);
    FreshUserHasOneActiveKey(NewUserInput(telegramId), f, hash);
    var saved := UserRepo.Save(users, created.user);
    var s := OrderedMap.Set(users, created.user.id, created.user);
    assert forall i :: 0 <= i < |users| && users[i].key != created.user.id ==> s[i] == users[i];
    assert forall i :: 0 <= i < |saved| && saved[i].value.telegramId == telegramId ==> saved[i].value == created.user;
    assert OrderedMap.Has(saved, created.user.id);
  }

  /** Registering twice with the same telegram id: the second call is refused. */
  lemma SecondRegistrationIsRefused(users: UserRepo.UserStore, telegramId: int, f: CreateFresh, g: CreateFresh,
                                    hash: string -> string)
    requires UserRepo.FindByTelegramId(users, telegramId).None?
    ensures var first := RegisterUser(users, telegramId, f, hash);
      RegisterUser(first.users, telegramId, g, hash)
        == RegisterResult(Failure(Domain(DomainError(UserAlreadyExists, IntToString(telegramId)))), first.users)
  {
    RegisteredUserIsFound(users, telegramId, f, hash);
  }
}
