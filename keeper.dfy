/** The registry of branded tokens: a keyed store from a token's slug to its
    record, read and written only through the keeper. */
module Registry {
  import opened Errors
  import opened Types
  import opened KeyOrder
  import Bank

  /** What the store holds under a key, seen through the codec. Bytes written
      by `SetBrandedToken` always decode to the record written; `Undecodable`
      stands for bytes that do not decode (a corrupted store or a codec of
      another version), with the codec's error message. */
  datatype Entry = Record(token: BrandedToken) | Undecodable(reason: string)

  /** `GetBrandedToken` on a store value: a missing key gives the zero record
      and no error; bytes that do not decode give the codec's error. */
  function Lookup(store: map<string, Entry>, key: string): (BrandedToken, Option<Error>)
  {
    if key !in store then (NewBrandedToken(), None)
    else match store[key]
      case Record(t) => (t, None)
      case Undecodable(reason) => (NewBrandedToken(), Some(Foreign(reason)))
  }

  class Keeper {
    /** The bank keeper the module credits and debits. */
    const coinKeeper: Bank.CoinKeeper
    /** The module's key-value store. */
    var store: map<string, Entry>

    /** A keeper over an empty store. */
    constructor (coinKeeper: Bank.CoinKeeper)
      ensures this.coinKeeper == coinKeeper && store == map[]
    {
      this.coinKeeper := coinKeeper;
      store := map[];
    }

    /** The record under `key`. "Not found" is not an error: a missing key
        gives the zero record with no error, so only `HasBrandedToken` tells
        an absent token from a blank one. */
    function GetBrandedToken(key: string): (r: (BrandedToken, Option<Error>))
      reads this
      ensures key !in store ==> r == (NewBrandedToken(), None)
      ensures key in store && store[key].Record? ==> r == (store[key].token, None)
      ensures key in store && store[key].Undecodable? ==> r.1 == Some(Foreign(store[key].reason))
    {
      Lookup(store, key)
    }

    function HasBrandedToken(key: string): (b: bool)
      reads this
      ensures b <==> key in store
    {
      key in store
    }

    /** Unconditional upsert of `value` under `key`. */
    method SetBrandedToken(key: string, value: BrandedToken)
      modifies this
      ensures store == old(store)[key := Record(value)]
      ensures HasBrandedToken(key) && GetBrandedToken(key) == (value, None)
      ensures forall other :: other != key ==> GetBrandedToken(other) == old(GetBrandedToken(other))
    {
      store := store[key := Record(value)];
    }

    /** Unconditional removal of `key`. */
    method DeleteBrandedToken(key: string)
      modifies this
      ensures store == old(store) - {key}
      ensures !HasBrandedToken(key) && GetBrandedToken(key) == (NewBrandedToken(), None)
      ensures forall other :: other != key ==> GetBrandedToken(other) == old(GetBrandedToken(other))
    {
      store := store - {key};
    }

    /** The keys an iterator over the empty prefix visits, in its order: every
        key of the store once, in ascending key order. */
    function GetBrandedTokensIterator(): (keys: seq<string>)
      reads this
      ensures Ascending(keys)
      ensures forall key :: key in keys <==> key in store
      ensures forall i, j :: 0 <= i < j < |keys| ==> keys[i] != keys[j]
      ensures |keys| == |store|
    {
      AscendingDistinct(SortedKeys(store.Keys));
      SortedKeys(store.Keys)
    }
  }
}
