/** The User aggregate: API keys (at most five ACTIVE), a token balance and the
    lock flag, with the actions of `User` and the overridden `User.create`. */
module UserAgg {
  import opened Wrappers
  import opened Decimal

  datatype KeyStatus = Active | Revoked

  /** An `ApiKey` value object; `createdAt` is milliseconds since the epoch. */
  datatype ApiKey = ApiKey(id: string, hashedKey: string, status: KeyStatus, createdAt: int)

  datatype User = User(id: string, telegramId: int, tokenBalance: real, apiKeys: seq<ApiKey>, isLocked: bool)

  datatype UserError =
    | TooManyActiveKeys   // "User cannot have more than 5 active API keys."
    | KeyNotFound         // "API key not found."
    | NonPositiveAmount   // "Amount must be positive."

  const MaxActiveKeys: int := 5
  const KeyPrefix: string := "sk-"
  const WelcomeBonus: real := 1500.0

  /** Number of ACTIVE keys. */
  function ActiveCount(keys: seq<ApiKey>): (n: nat)
    ensures n <= |keys|
  {
    if |keys| == 0 then 0
    else ActiveCount(keys[..|keys| - 1]) + (if keys[|keys| - 1].status == Active then 1 else 0)
  }

  /** The second aggregate invariant: at most five ACTIVE keys. */
  predicate KeyInvariant(u: User) {
    ActiveCount(u.apiKeys) <= MaxActiveKeys
  }

  /** The first aggregate invariant: locked exactly when the balance is negative. */
  predicate LockInvariant(u: User) {
    u.isLocked <==> u.tokenBalance < 0.0
  }

  /** `UserPropsSchema` on the numeric fields: a positive safe-integer telegram id
      and a safe-integer, non-negative balance. Kept apart from the invariants on purpose: debiting
      below zero is allowed by the actions and forbidden here. */
  predicate SchemaValid(u: User) {
    u.telegramId > 0 && IsSafe(u.telegramId) && IsInt(u.tokenBalance) && u.tokenBalance >= 0.0
  }

  /** The id, hash and creation time one key generation draws from `randomUUID`
      and the clock. `uuid` becomes the raw key after the "sk-" prefix. */
  datatype KeyFresh = KeyFresh(keyId: string, uuid: string, now: int)

  /** `generateHashedApiKey`: the raw key handed out once. */
  function RawKey(f: KeyFresh): (raw: string)
    ensures |raw| == |KeyPrefix| + |f.uuid|
    ensures raw[..|KeyPrefix|] == KeyPrefix && raw[|KeyPrefix|..] == f.uuid
  {
    KeyPrefix + f.uuid
  }

  /** The ACTIVE key record stored for a generated key. */
  function NewKey(f: KeyFresh, hash: string -> string): (k: ApiKey)
    ensures k.status == Active && k.hashedKey == hash(RawKey(f))
  {
    ApiKey(f.keyId, hash(RawKey(f)), Active, f.now)
  }

  lemma AppendCounts(keys: seq<ApiKey>, k: ApiKey)
    ensures ActiveCount(keys + [k]) == ActiveCount(keys) + (if k.status == Active then 1 else 0)
  {
    assert (keys + [k])[..|keys|] == keys;
  }

  datatype Generated = Generated(user: User, rawKey: string)

  /** `generateApiKey`: refuses at five ACTIVE keys, otherwise appends one new
      ACTIVE key and hands out its raw value. */
  function GenerateApiKey(u: User, f: KeyFresh, hash: string -> string): (r: Result<Generated, UserError>)
    ensures r.Failure? <==> ActiveCount(u.apiKeys) >= MaxActiveKeys
    ensures r.Failure? ==> r.error == TooManyActiveKeys
    ensures r.Success? ==> (
      && r.value.rawKey == RawKey(f)
      && r.value.user == u.(apiKeys := u.apiKeys + [NewKey(f, hash)])
      && ActiveCount(r.value.user.apiKeys) == ActiveCount(u.apiKeys) + 1
      && KeyInvariant(r.value.user))
  {
    AppendCounts(u.apiKeys, NewKey(f, hash));
    if ActiveCount(u.apiKeys) >= MaxActiveKeys then Failure(TooManyActiveKeys)
    else Success(Generated(u.(apiKeys := u.apiKeys + [NewKey(f, hash)]), RawKey(f)))
  }

  /** The first key carrying `keyId` (`Array.prototype.find`). */
  function FindKey(keys: seq<ApiKey>, keyId: string): (r: Option<ApiKey>)
    ensures r.None? <==> forall i :: 0 <= i < |keys| ==> keys[i].id != keyId
    ensures r.Some? ==> exists i :: (
      && 0 <= i < |keys| && keys[i] == r.value && keys[i].id == keyId
      && forall j :: 0 <= j < i ==> keys[j].id != keyId)
  {
    if |keys| == 0 then None
    else if keys[0].id == keyId then Some(keys[0])
    else
      var rest := FindKey(keys[1..], keyId);
      if rest.Some? then
        ghost var i :| 0 <= i < |keys[1..]| && keys[1..][i] == rest.value && keys[1..][i].id == keyId
          && forall j :: 0 <= j < i ==> keys[1..][j].id != keyId;
        assert keys[i + 1] == rest.value && forall j :: 0 <= j < i + 1 ==> keys[j].id != keyId;
        rest
      else rest
  }

  /** Every key carrying `keyId` set to REVOKED; all others kept. */
  function RevokeMatching(keys: seq<ApiKey>, keyId: string): (r: seq<ApiKey>)
    ensures |r| == |keys|
    ensures forall i :: 0 <= i < |keys| ==>
      r[i] == (if keys[i].id == keyId then keys[i].(status := Revoked) else keys[i])
  {
    if |keys| == 0 then []
    else
      var k := keys[|keys| - 1];
      RevokeMatching(keys[..|keys| - 1], keyId) + [if k.id == keyId then k.(status := Revoked) else k]
  }

  /** Revoking can only lower the number of ACTIVE keys. */
  lemma {:induction false} RevokeMatchingCount(keys: seq<ApiKey>, keyId: string)
    ensures ActiveCount(RevokeMatching(keys, keyId)) <= ActiveCount(keys)
    decreases |keys|
  {
    if |keys| > 0 {
      var init := keys[..|keys| - 1];
      var k := keys[|keys| - 1];
      RevokeMatchingCount(init, keyId);
      var r := RevokeMatching(keys, keyId);
      assert r[..|r| - 1] == RevokeMatching(init, keyId);
    }
  }

  /** `revokeApiKey`: the first key with that id decides. Unknown id: error.
      Already REVOKED: nothing changes. Otherwise every key with that id is REVOKED. */
  function RevokeApiKey(u: User, keyId: string): (r: Result<User, UserError>)
    ensures r.Failure? <==> forall i :: 0 <= i < |u.apiKeys| ==> u.apiKeys[i].id != keyId
    ensures r.Failure? ==> r.error == KeyNotFound
    ensures r.Success? && FindKey(u.apiKeys, keyId).value.status == Revoked ==> r.value == u
    ensures r.Success? && FindKey(u.apiKeys, keyId).value.status == Active ==> (
      && r.value == u.(apiKeys := RevokeMatching(u.apiKeys, keyId))
      && forall i :: 0 <= i < |r.value.apiKeys| && r.value.apiKeys[i].id == keyId ==>
           r.value.apiKeys[i].status == Revoked)
    ensures r.Success? ==> ActiveCount(r.value.apiKeys) <= ActiveCount(u.apiKeys)
  {
    RevokeMatchingCount(u.apiKeys, keyId);
    match FindKey(u.apiKeys, keyId)
    case None => Failure(KeyNotFound)
    case Some(k) =>
      if k.status == Revoked then Success(u)
      else Success(u.(apiKeys := RevokeMatching(u.apiKeys, keyId)))
  }

  /** Revoking keeps the five-key invariant. */
  lemma RevokePreservesKeyInvariant(u: User, keyId: string)
    requires KeyInvariant(u) && RevokeApiKey(u, keyId).Success?
    ensures KeyInvariant(RevokeApiKey(u, keyId).value)
  {
  }

  /** When two keys share an id and the first is already REVOKED, revoking that
      id leaves the later ACTIVE one ACTIVE: only the first match is consulted. */
  lemma RevokeConsultsFirstMatchOnly()
    ensures var k1 := ApiKey("k", "h1", Revoked, 0);
      var k2 := ApiKey("k", "h2", Active, 1);
      var u := User("u", 1, 0.0, [k1, k2], false);
      RevokeApiKey(u, "k") == Success(u) && ActiveCount(u.apiKeys) == 1
  {
    var k1 := ApiKey("k", "h1", Revoked, 0);
    var k2 := ApiKey("k", "h2", Active, 1);
    var keys := [k1, k2];
    assert FindKey(keys, "k") == Some(k1);
    assert keys[..1] == [k1] && [k1][..0] == [];
  }

  /** Every key REVOKED (ACTIVE ones become REVOKED, REVOKED ones stay). */
  function RevokeAll(keys: seq<ApiKey>): (r: seq<ApiKey>)
    ensures |r| == |keys|
    ensures forall i :: 0 <= i < |keys| ==> r[i] == keys[i].(status := Revoked)
    ensures ActiveCount(r) == 0
  {
    if |keys| == 0 then []
    else
      var init := RevokeAll(keys[..|keys| - 1]);
      var last := keys[|keys| - 1].(status := Revoked);
      assert (init + [last])[..|init|] == init;
      init + [last]
  }

  /** `revokeAllActiveApiKeys`, which the aggregate file does not define; its one
      caller expects every ACTIVE key to end up REVOKED and nothing else to change. */
  function RevokeAllActiveApiKeys(u: User): (r: User)
    ensures ActiveCount(r.apiKeys) == 0
    ensures |r.apiKeys| == |u.apiKeys|
    ensures forall i :: 0 <= i < |u.apiKeys| ==> (
      && r.apiKeys[i].id == u.apiKeys[i].id
      && r.apiKeys[i].hashedKey == u.apiKeys[i].hashedKey
      && r.apiKeys[i].createdAt == u.apiKeys[i].createdAt
      && r.apiKeys[i].status == Revoked)
    ensures r.id == u.id && r.telegramId == u.telegramId
    ensures r.tokenBalance == u.tokenBalance && r.isLocked == u.isLocked
  {
    u.(apiKeys := RevokeAll(u.apiKeys))
  }

  /** `debitTokens`: a positive amount lowers the balance and locks exactly when
      the new balance is negative. */
  function DebitTokens(u: User, amount: real): (r: Result<User, UserError>)
    ensures r.Failure? <==> amount <= 0.0
    ensures r.Failure? ==> r.error == NonPositiveAmount
    ensures r.Success? ==> (
      && r.value.tokenBalance == u.tokenBalance - amount
      && r.value.isLocked == (r.value.tokenBalance < 0.0)
      && LockInvariant(r.value)
      && r.value.tokenBalance < u.tokenBalance
      && r.value == u.(tokenBalance := r.value.tokenBalance, isLocked := r.value.isLocked))
  {
    if amount <= 0.0 then Failure(NonPositiveAmount)
    else
      var newBalance := u.tokenBalance - amount;
      Success(u.(tokenBalance := newBalance, isLocked := newBalance < 0.0))
  }

  /** `creditTokens`: a positive amount raises the balance; the lock follows the
      new balance's sign. */
  function CreditTokens(u: User, amount: real): (r: Result<User, UserError>)
    ensures r.Failure? <==> amount <= 0.0
    ensures r.Failure? ==> r.error == NonPositiveAmount
    ensures r.Success? ==> (
      && r.value.tokenBalance == u.tokenBalance + amount
      && r.value.isLocked == (r.value.tokenBalance < 0.0)
      && LockInvariant(r.value)
      && r.value.tokenBalance > u.tokenBalance
      && r.value == u.(tokenBalance := r.value.tokenBalance, isLocked := r.value.isLocked))
  {
    if amount <= 0.0 then Failure(NonPositiveAmount)
    else
      var newBalance := u.tokenBalance + amount;
      Success(u.(tokenBalance := newBalance, isLocked := newBalance < 0.0))
  }

  /** Crediting back what was debited restores the balance and the lock. */
  lemma CreditUndoesDebit(u: User, amount: real)
    requires LockInvariant(u) && amount > 0.0
    ensures CreditTokens(DebitTokens(u, amount).value, amount) == Success(u)
  {
  }

  /** Debiting can take a schema-valid user outside the schema: the actions allow
      a negative balance that `UserPropsSchema` rejects. */
  lemma DebitCanBreakSchema()
    ensures var u := User("u", 1, 1.0, [], false);
      SchemaValid(u) && LockInvariant(u)
      && DebitTokens(u, 2.0).Success?
      && !SchemaValid(DebitTokens(u, 2.0).value)
      && LockInvariant(DebitTokens(u, 2.0).value)
  {
    assert IsInt(1.0) by { assert (1.0).Floor == 1; }
  }

  /** `lock`: sets the flag (a locked user is returned as is). */
  function Lock(u: User): (r: User)
    ensures r.isLocked
    ensures r == u.(isLocked := true)
    ensures u.isLocked ==> r == u
  {
    if u.isLocked then u else u.(isLocked := true)
  }

  /** `unlock`: clears the flag (an unlocked user is returned as is). */
  function Unlock(u: User): (r: User)
    ensures !r.isLocked
    ensures r == u.(isLocked := false)
    ensures !u.isLocked ==> r == u
  {
    if !u.isLocked then u else u.(isLocked := false)
  }

  /** `lock` and `unlock` ignore the balance, so each breaks the lock invariant
      for a user on the other side of zero. */
  lemma LockIgnoresBalance(u: User)
    requires LockInvariant(u)
    ensures LockInvariant(Lock(u)) <==> u.tokenBalance < 0.0
    ensures LockInvariant(Unlock(u)) <==> u.tokenBalance >= 0.0
  {
  }

  /** Whether some ACTIVE key among `keys` stores `hashed`. */
  function HasActiveHash(keys: seq<ApiKey>, hashed: string): (b: bool)
    ensures b <==> exists i :: 0 <= i < |keys| && keys[i].hashedKey == hashed && keys[i].status == Active
  {
    if |keys| == 0 then false
    else
      var init := keys[..|keys| - 1];
      var last := keys[|keys| - 1];
      assert forall i :: 0 <= i < |init| ==> init[i] == keys[i];
      HasActiveHash(init, hashed) || (last.hashedKey == hashed && last.status == Active)
  }

  /** `isApiKeyValid`: whether the hash of the presented key is stored on an
      ACTIVE key. The state is returned unchanged, so only the verdict is modelled. */
  function IsApiKeyValid(u: User, raw: string, hash: string -> string): (b: bool)
    ensures b <==> exists i :: 0 <= i < |u.apiKeys| && u.apiKeys[i].hashedKey == hash(raw) && u.apiKeys[i].status == Active
  {
    HasActiveHash(u.apiKeys, hash(raw))
  }

  /** The raw key handed out by `generateApiKey` is accepted by `isApiKeyValid`. */
  lemma GeneratedKeyIsValid(u: User, f: KeyFresh, hash: string -> string)
    requires GenerateApiKey(u, f, hash).Success?
    ensures var g := GenerateApiKey(u, f, hash).value;
      IsApiKeyValid(g.user, g.rawKey, hash)
  {
    var g := GenerateApiKey(u, f, hash).value;
    assert g.user.apiKeys[|u.apiKeys|] == NewKey(f, hash);
  }

  /** Once every key is revoked no presented key is accepted. */
  lemma RevokedUserAcceptsNothing(u: User, raw: string, hash: string -> string)
    ensures !IsApiKeyValid(RevokeAllActiveApiKeys(u), raw, hash)
  {
  }

  /** The props `User.create` receives. An absent id is the empty string, as
      `!props.id` treats it; an absent balance is `None` (the `UserProps` type
      makes the balance required, so only the brand new branch meets `None`). */
  datatype UserInput = UserInput(
    id: string, telegramId: int, tokenBalance: Option<real>, apiKeys: seq<ApiKey>, isLocked: bool)

  /** What the fresh branch of `User.create` draws from `randomUUID` and the clock. */
  datatype CreateFresh = CreateFresh(userId: string, key: KeyFresh)

  datatype Created = Created(user: User, generatedKey: Option<string>)

  /** `props.tokenBalance || 1500`: an absent or zero balance becomes the bonus. */
  function InitialBalance(given: Option<real>): (b: real)
    ensures given.None? ==> b == WelcomeBonus
    ensures given.Some? ==> b == if given.value == 0.0 then WelcomeBonus else given.value
    ensures b != 0.0
  {
    match given
    case None => WelcomeBonus
    case Some(x) => if x == 0.0 then WelcomeBonus else x
  }

  /** Whether `User.create` takes its "brand new user" branch. */
  predicate IsFreshRequest(props: UserInput) {
    props.id == "" || |props.apiKeys| == 0
  }

  /** The overridden `User.create`. A brand new user (no id, or no keys) gets a new
      id, exactly one ACTIVE key, no lock and the bonus unless a non-zero balance is
      given; the raw key is attached. Otherwise the props are kept as given. The
      schema and invariant checks of the underlying factory are not modelled. */
  function CreateUser(props: UserInput, f: CreateFresh, hash: string -> string): (r: Created)
    requires !IsFreshRequest(props) ==> props.tokenBalance.Some?
    ensures IsFreshRequest(props) ==> (
      && r.user == User(f.userId, props.telegramId, InitialBalance(props.tokenBalance), [NewKey(f.key, hash)], false)
      && r.generatedKey == Some(RawKey(f.key)))
    ensures !IsFreshRequest(props) ==> (
      && r.generatedKey.None?
      && r.user.id == props.id && r.user.telegramId == props.telegramId
      && Some(r.user.tokenBalance) == props.tokenBalance
      && r.user.apiKeys == props.apiKeys && r.user.isLocked == props.isLocked)
  {
    if IsFreshRequest(props) then
      Created(User(f.userId, props.telegramId, InitialBalance(props.tokenBalance), [NewKey(f.key, hash)], false),
        Some(RawKey(f.key)))
    else
      Created(User(props.id, props.telegramId, props.tokenBalance.value, props.apiKeys, props.isLocked), None)
  }

  /** A brand new user has exactly one key, it is ACTIVE, and its raw value is
      accepted; the user satisfies the five-key invariant, and the lock invariant
      exactly when the balance is not negative. */
  lemma FreshUserHasOneActiveKey(props: UserInput, f: CreateFresh, hash: string -> string)
    requires IsFreshRequest(props)
    ensures var c := CreateUser(props, f, hash);
      && |c.user.apiKeys| == 1 && c.user.apiKeys[0].status == Active
      && ActiveCount(c.user.apiKeys) == 1 && KeyInvariant(c.user)
      && IsApiKeyValid(c.user, c.generatedKey.value, hash)
      && (LockInvariant(c.user) <==> c.user.tokenBalance >= 0.0)
  {
    var c := CreateUser(props, f, hash);
    assert c.user.apiKeys[..0] == [];
  }

  /** A zero balance is "falsy", so asking for 0 gives the bonus of 1500. */
  lemma ZeroBalanceGetsBonus(telegramId: int, f: CreateFresh, hash: string -> string)
    ensures CreateUser(UserInput("", telegramId, Some(0.0), [], false), f, hash).user.tokenBalance == 1500.0
  {
  }
}
