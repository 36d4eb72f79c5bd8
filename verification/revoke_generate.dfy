/** `revokeAndGenerateApiKey`: revoke every key of a user, then issue one new key. */
module RevokeAndGenerate {
  import opened Wrappers
  import opened Errors
  import opened UserAgg
  import UserRepo

  datatype RotateResult = RotateResult(outcome: Result<string, Thrown>, users: UserRepo.UserStore)

  const TooManyKeysMessage: string := "User cannot have more than 5 active API keys."

  /** The user after the rotation: all old keys REVOKED, one new ACTIVE key at the
      end, everything else as it was. */
  function Rotated(u: User, f: KeyFresh, hash: string -> string): (v: User)
    ensures ActiveCount(v.apiKeys) == 1 && |v.apiKeys| == |u.apiKeys| + 1
    ensures v.apiKeys[|u.apiKeys|] == NewKey(f, hash)
    ensures forall i :: 0 <= i < |u.apiKeys| ==> v.apiKeys[i] == u.apiKeys[i].(status := Revoked)
    ensures v.id == u.id && v.telegramId == u.telegramId
    ensures v.tokenBalance == u.tokenBalance && v.isLocked == u.isLocked
  {
    var revoked := RevokeAllActiveApiKeys(u);
    AppendCounts(revoked.apiKeys, NewKey(f, hash));
    revoked.(apiKeys := revoked.apiKeys + [NewKey(f, hash)])
  }

  /** `revokeAndGenerateApiKey({userId})`. */
  function RevokeAndGenerateApiKey(users: UserRepo.UserStore, userId: string, f: KeyFresh, hash: string -> string): (r: RotateResult)
    ensures UserRepo.FindById(users, userId).None? ==>
      r == RotateResult(Failure(Domain(DomainError(UserNotFound, userId))), users)
    ensures UserRepo.FindById(users, userId).Some? ==> (
      var u := UserRepo.FindById(users, userId).value;
      && r.outcome == Success(RawKey(f))
      && r.users == UserRepo.Save(users, Rotated(u, f, hash)))
  {
    match UserRepo.FindById(users, userId)
    case None => RotateResult(Failure(Domain(DomainError(UserNotFound, userId))), users)
    case Some(u) =>
      var revoked := RevokeAllActiveApiKeys(u);
      match GenerateApiKey(revoked, f, hash)
      case Failure(_) => RotateResult(Failure(Plain(TooManyKeysMessage)), users)
      case Success(generated) => RotateResult(Success(generated.rawKey), UserRepo.Save(users, generated.user))
  }

  /** After a rotation the stored user (under the same id, since user ids are
      the store keys) has exactly one ACTIVE key, one more key than before, every
      earlier key kept but REVOKED, and accepts the returned raw key and no key
      it accepted before unless that key hashes like the new one. */
  lemma RotationLeavesOneActiveKey(users: UserRepo.UserStore, userId: string, f: KeyFresh, hash: string -> string, presented: string)
    requires UserRepo.FindById(users, userId).Some?
    ensures var u := UserRepo.FindById(users, userId).value;
      var r := RevokeAndGenerateApiKey(users, userId, f, hash);
      && r.outcome.Success?
      && var v := UserRepo.FindById(r.users, u.id);
      && v.Some?
      && ActiveCount(v.value.apiKeys) == 1
      && |v.value.apiKeys| == |u.apiKeys| + 1
      && (forall i :: 0 <= i < |u.apiKeys| ==>
            v.value.apiKeys[i].id == u.apiKeys[i].id && v.value.apiKeys[i].hashedKey == u.apiKeys[i].hashedKey
            && v.value.apiKeys[i].status == Revoked)
      && IsApiKeyValid(v.value, r.outcome.value, hash)
      && (IsApiKeyValid(v.value, presented, hash) ==> hash(presented) == hash(r.outcome.value))
  {
    var u := UserRepo.FindById(users, userId).value;
    var v := Rotated(u, f, hash);
    if IsApiKeyValid(v, presented, hash) {
      var i :| 0 <= i < |v.apiKeys| && v.apiKeys[i].hashedKey == hash(presented) && v.apiKeys[i].status == Active;
      assert i == |u.apiKeys|;
    }
  }
}
