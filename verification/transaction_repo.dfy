/** `InMemoryTransactionRepo`: transactions in a `Map` keyed by transaction id. */
module TransactionRepo {
  import opened Wrappers
  import opened OrderedMap
  import opened TransactionAgg

  type TxStore = Store<Transaction>

  /** `save`: upserts the transaction under its id. */
  function Save(s: TxStore, t: Transaction): (r: TxStore)
    ensures Get(r, t.id) == Some(t)
    ensures forall k :: k != t.id ==> Get(r, k) == Get(s, k)
  {
    var r := Set(s, t.id, t);
    SetThenGet(s, t.id, t, t.id);
    forall k ensures k != t.id ==> Get(r, k) == Get(s, k) {
      SetThenGet(s, t.id, t, k);
    }
    r
  }

  /** The rows of `rows` that belong to `userId`, in order. */
  function RowsOf(rows: seq<Transaction>, userId: string): (r: seq<Transaction>)
    ensures forall t :: t in r <==> t in rows && t.userId == userId
    ensures |r| <= |rows|
  {
    if |rows| == 0 then []
    else
      var last := rows[|rows| - 1];
      var init := rows[..|rows| - 1];
      assert rows == init + [last];
      RowsOf(init, userId) + (if last.userId == userId then [last] else [])
  }

  lemma {:induction false} RowsOfConcat(a: seq<Transaction>, b: seq<Transaction>, userId: string)
    ensures RowsOf(a + b, userId) == RowsOf(a, userId) + RowsOf(b, userId)
    decreases |b|
  {
    if |b| == 0 {
      assert a + b == a;
    } else {
      var init := b[..|b| - 1];
      assert (a + b)[..|a + b| - 1] == a + init;
      RowsOfConcat(a, init, userId);
    }
  }

  /** Replacing rows that do not belong to `userId` by others that do not either
      leaves that user's rows as they were. */
  lemma {:induction false} RowsOfPointwise(a: seq<Transaction>, b: seq<Transaction>, userId: string)
    requires |a| == |b|
    requires forall i :: 0 <= i < |a| ==> a[i] == b[i] || (a[i].userId != userId && b[i].userId != userId)
    ensures RowsOf(a, userId) == RowsOf(b, userId)
    decreases |a|
  {
    if |a| > 0 {
      RowsOfPointwise(a[..|a| - 1], b[..|b| - 1], userId);
    }
  }

  /** `findAllByUserId`: the stored transactions of that user, in insertion order. */
  function FindAllByUserId(s: TxStore, userId: string): (r: seq<Transaction>)
    ensures forall t :: t in r <==> (t.userId == userId && exists i :: 0 <= i < |s| && s[i].value == t)
  {
    var vs := Values(s);
    assert forall t :: t in vs <==> exists i :: 0 <= i < |s| && s[i].value == t;
    RowsOf(vs, userId)
  }

  /** Saving a transaction never changes another user's list, provided the row it
      replaces (if its id was taken) was not that user's either. */
  lemma SaveKeepsOtherUsers(s: TxStore, t: Transaction, other: string)
    requires t.userId != other
    requires Get(s, t.id).Some? ==> Get(s, t.id).value.userId != other
    ensures FindAllByUserId(Save(s, t), other) == FindAllByUserId(s, other)
  {
    var r := Set(s, t.id, t);
    if Has(s, t.id) {
      RowsOfPointwise(Values(s), Values(r), other);
    } else {
      assert Values(r) == Values(s) + [t];
      RowsOfConcat(Values(s), [t], other);
      assert RowsOf([t], other) == [] by {
        assert [t][..0] == [];
      }
    }
  }

  /** Saving under a fresh id appends exactly that row to its user's list. */
  lemma SaveNewAppends(s: TxStore, t: Transaction)
    requires !Has(s, t.id)
    ensures FindAllByUserId(Save(s, t), t.userId) == FindAllByUserId(s, t.userId) + [t]
  {
    var r := Set(s, t.id, t);
    assert Values(r) == Values(s) + [t];
    RowsOfConcat(Values(s), [t], t.userId);
    assert RowsOf([t], t.userId) == [t] by {
      assert [t][..0] == [];
    }
  }

  /** `clear`: afterwards every user's list is empty. */
  function ClearAll(): (r: TxStore)
    ensures forall u :: FindAllByUserId(r, u) == []
  {
    Clear()
  }
}
