/** `InMemoryUserRepo`: users in a `Map` keyed by user id, plus the lookup by API
    key the proxy pipeline relies on. */
module UserRepo {
  import opened Wrappers
  import opened OrderedMap
  import opened UserAgg

  /** `save` files a user under its own id, so every entry's key is the id of
      the user it holds. */
  predicate KeyedById(s: Store<User>) {
    forall i :: 0 <= i < |s| ==> s[i].value.id == s[i].key
  }

  /** The stores `save` can build. */
  type UserStore = s: Store<User> | KeyedById(s) witness []

  /** `save`: upserts the user under its id. */
  function Save(s: UserStore, u: User): (r: UserStore)
    ensures FindById(r, u.id) == Some(u)
    ensures forall k :: k != u.id ==> FindById(r, k) == FindById(s, k)
    ensures Has(s, u.id) ==> |r| == |s|
    ensures !Has(s, u.id) ==> |r| == |s| + 1
  {
    var r: UserStore := Set(s, u.id, u);
    SetThenGet(s, u.id, u, u.id);
    forall k ensures k != u.id ==> Get(r, k) == Get(s, k) {
      SetThenGet(s, u.id, u, k);
    }
    r
  }

  /** `findById`: `null` for an id never saved. */
  function FindById(s: UserStore, id: string): (r: Option<User>)
    ensures r.None? <==> !Has(s, id)
    ensures forall i :: 0 <= i < |s| && s[i].key == id ==> r == Some(s[i].value)
    ensures r.Some? ==> r.value.id == id
  {
    Get(s, id)
  }

  /** The first stored value (in insertion order) satisfying a test on users. */
  predicate IsFirstWhere(s: Store<User>, i: int, matches: User -> bool) {
    && 0 <= i < |s| && matches(s[i].value)
    && forall j :: 0 <= j < i ==> !matches(s[j].value)
  }

  function FirstWhere(s: Store<User>, matches: User -> bool): (r: Option<User>)
    ensures r.None? <==> forall i :: 0 <= i < |s| ==> !matches(s[i].value)
    ensures r.Some? ==> exists i :: IsFirstWhere(s, i, matches) && r.value == s[i].value
    decreases |s|
  {
    if |s| == 0 then None
    else if matches(s[0].value) then
      assert IsFirstWhere(s, 0, matches);
      Some(s[0].value)
    else
      var rest: Store<User> := s[1..];
      var r := FirstWhere(rest, matches);
      if r.Some? then
        ghost var i :| IsFirstWhere(rest, i, matches) && r.value == rest[i].value;
        assert IsFirstWhere(s, i + 1, matches);
        r
      else r
  }

  /** `findByTelegramId`: the earliest-saved user with that telegram id. */
  function FindByTelegramId(s: UserStore, telegramId: int): (r: Option<User>)
    ensures r.None? <==> forall i :: 0 <= i < |s| ==> s[i].value.telegramId != telegramId
    ensures r.Some? ==> r.value.telegramId == telegramId && exists i :: 0 <= i < |s| && s[i].value == r.value
    ensures r.Some? ==> exists i :: IsFirstWhere(s, i, (v: User) => v.telegramId == telegramId) && r.value == s[i].value
  {
    FirstWhere(s, (v: User) => v.telegramId == telegramId)
  }

  /** `findByApiKey`, which the repository file does not define: from its call
      site, the earliest-saved user that accepts the presented raw key, i.e. holds
      an ACTIVE key whose stored hash is the hash of it. */
  function FindByApiKey(s: UserStore, raw: string, hash: string -> string): (r: Option<User>)
    ensures r.None? <==> forall i :: 0 <= i < |s| ==> !IsApiKeyValid(s[i].value, raw, hash)
    ensures r.Some? ==> IsApiKeyValid(r.value, raw, hash) && exists i :: 0 <= i < |s| && s[i].value == r.value
    ensures r.Some? ==> exists i :: IsFirstWhere(s, i, (v: User) => IsApiKeyValid(v, raw, hash)) && r.value == s[i].value
  {
    FirstWhere(s, (v: User) => IsApiKeyValid(v, raw, hash))
  }

  /** A user saved with an ACTIVE key hashing to `hash(raw)` is found by that key
      when no other stored user accepts the same key. */
  lemma SavedKeyIsFound(s: UserStore, u: User, raw: string, hash: string -> string)
    requires IsApiKeyValid(u, raw, hash)
    requires forall i :: 0 <= i < |s| && s[i].key != u.id ==> !IsApiKeyValid(s[i].value, raw, hash)
    ensures FindByApiKey(Save(s, u), raw, hash) == Some(u)
  {
    var r := Save(s, u);
    var found := FindByApiKey(r, raw, hash);
    assert found.Some? by {
      var j :| 0 <= j < |r| && r[j].key == u.id;
    }
    var i :| 0 <= i < |r| && r[i].value == found.value;
    assert FindById(r, r[i].key) == Some(r[i].value);
  }

  /** `clear`: afterwards nothing is found. */
  function ClearAll(): (r: UserStore)
    ensures forall id :: FindById(r, id).None?
    ensures forall t :: FindByTelegramId(r, t).None?
  {
    Clear()
  }
}
