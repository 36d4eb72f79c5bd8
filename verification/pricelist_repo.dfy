/** `InMemoryPriceListRepo`: price lists in a `Map` keyed by id; the active list
    is simply the earliest-inserted one. */
module PriceListRepo {
  import opened Wrappers
  import opened OrderedMap
  import opened PriceListAgg

  type PriceListStore = Store<PriceList>

  /** `findActive`: the first value in insertion order, or null when empty. */
  function FindActive(s: PriceListStore): (r: Option<PriceList>)
    ensures r.None? <==> |s| == 0
    ensures r.Some? ==> r.value == s[0].value
  {
    FirstValue(s)
  }

  /** `add`: stores the list under its id (replacing in place if the id is known);
      every other id reads back what it did before. */
  function Add(s: PriceListStore, pl: PriceList): (r: PriceListStore)
    ensures Get(r, pl.id) == Some(pl)
    ensures forall k :: k != pl.id ==> Get(r, k) == Get(s, k)
    ensures |r| >= 1
  {
    SetThenGet(s, pl.id, pl, pl.id);
    assert forall k | k != pl.id :: Get(Set(s, pl.id, pl), k) == Get(s, k) by {
      forall k | k != pl.id
        ensures Get(Set(s, pl.id, pl), k) == Get(s, k)
      {
        SetThenGet(s, pl.id, pl, k);
      }
    }
    Set(s, pl.id, pl)
  }

  /** Once the store holds a list, adding one with a new id never changes which
      list is active. */
  lemma AddNewKeepsActive(s: PriceListStore, pl: PriceList)
    requires |s| > 0 && !Has(s, pl.id)
    ensures FindActive(Add(s, pl)) == FindActive(s)
  {
  }

  /** Re-adding a known id replaces the value where it stands: every entry keeps
      its position, and the replaced list stays active if it was. */
  lemma ReAddKeepsPosition(s: PriceListStore, pl: PriceList)
    requires Has(s, pl.id)
    ensures |Add(s, pl)| == |s|
    ensures forall i :: 0 <= i < |s| ==> Add(s, pl)[i].key == s[i].key
    ensures s[0].key == pl.id ==> FindActive(Add(s, pl)) == Some(pl)
    ensures s[0].key != pl.id ==> FindActive(Add(s, pl)) == FindActive(s)
  {
  }

  /** Adding to an empty store makes the added list active. */
  lemma AddToEmptyActivates(pl: PriceList)
    ensures FindActive(Add(Clear(), pl)) == Some(pl)
  {
  }

  /** `clear`: afterwards there is no active list. */
  function ClearAll(): (r: PriceListStore)
    ensures FindActive(r).None?
  {
    Clear()
  }
}
