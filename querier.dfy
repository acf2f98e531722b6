/** The read-only queries over the registry: one token by name, the list of
    keys, and the total supply. No query changes the store. Responses are
    returned as values; their JSON encoding is not modelled. */
module Querier {
  import opened Errors
  import opened Types
  import opened KeyOrder
  import QueryTypes
  import opened Registry

  datatype QueryResponse =
    | TokenResponse(token: BrandedToken)
    | ListResponse(keys: QueryTypes.QueryResFetch)
    | SupplyResponse(supply: int)

  /** A query's answer, its error, or one of the two runtime panics the
      querier can raise: `OutOfRange` where Go indexes past the end of a path
      that is too short, `NilDereference` where a method of `big.Int` is
      called on a nil pointer. */
  datatype QueryOutcome = Answer(response: QueryResponse) | Failed(error: Error) | OutOfRange | NilDereference

  const ErrUnknownEndpoint := "unknown surprise query endpoint"
  const ErrTokenMissing := "The branded token does not exist"
  const ErrFetchFailed := "Unable to fetch the branded token"

  /** The amount `GetBrandedToken` reports for `key` (zero when absent or
      undecodable, the zero record's amount). */
  function Amount(store: map<string, Entry>, key: string): int
  {
    Lookup(store, key).0.GetAmount()
  }

  /** The amounts under `keys`, added in order. */
  function SumAmounts(store: map<string, Entry>, keys: seq<string>): int
    decreases |keys|
  {
    if |keys| == 0 then 0
    else SumAmounts(store, keys[..|keys| - 1]) + Amount(store, keys[|keys| - 1])
  }

  /** The total supply: the sum of the amounts of all stored records. The
      sum does not depend on the order the keys are added in. */
  function TotalSupply(store: map<string, Entry>): (supply: int)
    ensures forall keys :: Distinct(keys) && (forall key :: key in keys <==> key in store) ==>
              supply == SumAmounts(store, keys)
  {
    var keys := SortedKeys(store.Keys);
    AscendingDistinct(keys);
    SumAnyOrder(store, keys);
    SumAmounts(store, keys)
  }

  /** Every duplicate-free listing of the same keys has the same sum. */
  lemma SumAnyOrder(store: map<string, Entry>, keys: seq<string>)
    requires Distinct(keys)
    ensures forall other :: Distinct(other) && (forall key :: key in other <==> key in keys) ==>
              SumAmounts(store, other) == SumAmounts(store, keys)
  {
    forall other | Distinct(other) && (forall key :: key in other <==> key in keys)
      ensures SumAmounts(store, other) == SumAmounts(store, keys)
    {
      SumPermutation(store, other, keys);
    }
  }

  /** `queryGetBrandedToken` on the path after the discriminator. */
  function QueryGetBrandedToken(k: Keeper, path: seq<string>, slug: string -> string): (r: QueryOutcome)
    reads k
    ensures |path| == 0 ==> r == OutOfRange
    ensures |path| > 0 && slug(path[0]) !in k.store ==> r == Failed(Failure(ErrInvalidRequest, ErrTokenMissing))
    ensures |path| > 0 && slug(path[0]) in k.store ==>
              match k.store[slug(path[0])]
              case Record(t) => r == Answer(TokenResponse(t))
              case Undecodable(reason) => r == Failed(Wrap(Foreign(reason), ErrFetchFailed))
  {
    if |path| == 0 then OutOfRange
    else
      var tokenSlug := slug(path[0]);
      if !k.HasBrandedToken(tokenSlug) then Failed(Failure(ErrInvalidRequest, ErrTokenMissing))
      else
        var (brandedToken, err) := k.GetBrandedToken(tokenSlug);
        if err.Some? then Failed(Wrap(err.value, ErrFetchFailed))
        else Answer(TokenResponse(brandedToken))
  }

  /** `queryListBrandedTokens`: every key of the store once, in iteration order. */
  method QueryListBrandedTokens(k: Keeper) returns (tokens: QueryTypes.QueryResFetch)
    ensures tokens == k.GetBrandedTokensIterator()
    ensures forall key :: key in tokens <==> key in k.store
    ensures Ascending(tokens) && |tokens| == |k.store|
  {
    tokens := [];
    var keys := k.GetBrandedTokensIterator();
    for i := 0 to |keys|
      invariant tokens == keys[..i]
    {
      tokens := tokens + [keys[i]];
    }
  }

  /** One more visited key adds its amount to the running sum. */
  lemma SumPrefixStep(store: map<string, Entry>, keys: seq<string>, i: nat)
    requires i < |keys|
    ensures SumAmounts(store, keys[..i + 1]) == SumAmounts(store, keys[..i]) + Amount(store, keys[i])
  {
    assert keys[..i + 1][..i] == keys[..i];
  }

  /** `queryTotalSupply`, read as intended: the amounts of all records are
      added into an accumulator that starts at zero. */
  method QueryTotalSupply(k: Keeper) returns (supply: int)
    ensures supply == TotalSupply(k.store)
  {
    supply := 0;
    var keys := k.GetBrandedTokensIterator();
    for i := 0 to |keys|
      invariant supply == SumAmounts(k.store, keys[..i])
    {
      var (token, _) := k.GetBrandedToken(keys[i]);
      SumPrefixStep(k.store, keys, i);
      supply := supply + token.GetAmount();
    }
    assert keys[..|keys|] == keys;
  }

  /** `queryTotalSupply` as written. `var supply sdk.Int` is the zero value
      of `sdk.Int`, whose `big.Int` pointer is nil. The first `supply.Add(...)`
      hands that nil pointer to `big.Int.Add` as its first operand, which
      dereferences it, so the query panics as soon as the iterator yields a
      key. Over an empty store the loop body never runs and the zero value is
      encoded as 0. (Had the call returned, its sum would have been dropped.) */
  method QueryTotalSupplyAsWritten(k: Keeper) returns (r: QueryOutcome)
    ensures |k.store| == 0 ==> r == Answer(SupplyResponse(0))
    ensures |k.store| > 0 ==> r == NilDereference
  {
    var keys := k.GetBrandedTokensIterator();
    if |keys| > 0 {
      return NilDereference;
    }
    r := Answer(SupplyResponse(0));
  }

  /** `NewQuerier`: the first path segment picks the endpoint, and the get
      endpoint receives the path without it. */
  method NewQuerier(k: Keeper, path: seq<string>, slug: string -> string) returns (r: QueryOutcome)
    ensures |path| == 0 ==> r == OutOfRange
    ensures |path| > 0 && path[0] == QueryTypes.QueryGetBrandedToken ==> r == QueryGetBrandedToken(k, path[1..], slug)
    ensures |path| > 0 && path[0] == QueryTypes.QueryListBrandedTokens ==> r == Answer(ListResponse(k.GetBrandedTokensIterator()))
    ensures |path| > 0 && path[0] == QueryTypes.QueryGetTotalSupply ==> r == Answer(SupplyResponse(TotalSupply(k.store)))
    ensures |path| > 0 && path[0] !in {QueryTypes.QueryGetBrandedToken, QueryTypes.QueryListBrandedTokens,
                                         QueryTypes.QueryGetTotalSupply} ==>
              r == Failed(Failure(ErrUnknownRequest, ErrUnknownEndpoint))
  {
    if |path| == 0 {
      return OutOfRange;
    }
    match path[0]
    case "get" =>
      r := QueryGetBrandedToken(k, path[1..], slug);
    case "list" =>
      var tokens := QueryListBrandedTokens(k);
      r := Answer(ListResponse(tokens));
    case "supply" =>
      var supply := QueryTotalSupply(k);
      r := Answer(SupplyResponse(supply));
    case _ =>
      r := Failed(Failure(ErrUnknownRequest, ErrUnknownEndpoint));
  }

  // Properties of the total supply

  lemma {:induction false} SumConcat(store: map<string, Entry>, a: seq<string>, b: seq<string>)
    ensures SumAmounts(store, a + b) == SumAmounts(store, a) + SumAmounts(store, b)
    decreases |b|
  {
    if |b| == 0 {
      assert a + b == a;
    } else {
      var b' := b[..|b| - 1];
      assert (a + b)[..|a + b| - 1] == a + b';
      SumConcat(store, a, b');
    }
  }

  /** The sum over keys on which two stores report the same amounts is the same. */
  lemma {:induction false} SumFrame(s1: map<string, Entry>, s2: map<string, Entry>, keys: seq<string>)
    requires forall i :: 0 <= i < |keys| ==> Amount(s1, keys[i]) == Amount(s2, keys[i])
    ensures SumAmounts(s1, keys) == SumAmounts(s2, keys)
    decreases |keys|
  {
    if |keys| > 0 {
      SumFrame(s1, s2, keys[..|keys| - 1]);
    }
  }

  predicate Distinct(s: seq<string>)
  {
    forall i, j :: 0 <= i < j < |s| ==> s[i] != s[j]
  }

  /** `s` without its element at `j`. */
  function RemoveAt(s: seq<string>, j: nat): (r: seq<string>)
    requires j < |s|
    ensures |r| == |s| - 1
    ensures forall m :: 0 <= m < |r| ==> r[m] == if m < j then s[m] else s[m + 1]
  {
    s[..j] + s[j + 1..]
  }

  lemma RemoveAtKeys(s: seq<string>, j: nat)
    requires j < |s| && Distinct(s)
    ensures Distinct(RemoveAt(s, j))
    ensures forall k :: k in RemoveAt(s, j) <==> k in s && k != s[j]
  {
    var r := RemoveAt(s, j);
    forall p, q | 0 <= p < q < |r|
      ensures r[p] != r[q]
    {
      var p' := if p < j then p else p + 1;
      var q' := if q < j then q else q + 1;
      assert r[p] == s[p'] && r[q] == s[q'];
    }
    forall k
      ensures k in r <==> k in s && k != s[j]
    {
      if k in r {
        var m :| 0 <= m < |r| && r[m] == k;
        var m' := if m < j then m else m + 1;
        assert s[m'] == k && m' != j;
      }
      if k in s && k != s[j] {
        var m :| 0 <= m < |s| && s[m] == k;
        assert m != j;
        if m < j {
          assert r[m] == k;
        } else {
          assert r[m - 1] == k;
        }
      }
    }
  }

  lemma SumRemoveAt(store: map<string, Entry>, s: seq<string>, j: nat)
    requires j < |s|
    ensures SumAmounts(store, s) == SumAmounts(store, RemoveAt(s, j)) + Amount(store, s[j])
  {
    assert s == s[..j] + ([s[j]] + s[j + 1..]);
    SumConcat(store, s[..j], [s[j]] + s[j + 1..]);
    SumConcat(store, [s[j]], s[j + 1..]);
    SumConcat(store, s[..j], s[j + 1..]);
    assert SumAmounts(store, [s[j]]) == Amount(store, s[j]) by {
      assert [s[j]][..0] == [];
    }
  }

  /** Adding in any order gives the same sum: two duplicate-free sequences of
      the same keys have the same sum. */
  lemma {:induction false} SumPermutation(store: map<string, Entry>, a: seq<string>, b: seq<string>)
    requires Distinct(a) && Distinct(b)
    requires forall k :: k in a <==> k in b
    ensures SumAmounts(store, a) == SumAmounts(store, b)
    decreases |a|
  {
    SameKeysSameEmptiness(a, b);
    if |a| > 0 {
      var n := |a|;
      var x := a[n - 1];
      assert x in b;
      var j :| 0 <= j < |b| && b[j] == x;
      RemoveAtKeys(a, n - 1);
      RemoveAtKeys(b, j);
      assert RemoveAt(a, n - 1) == a[..n - 1];
      SumPermutation(store, RemoveAt(a, n - 1), RemoveAt(b, j));
      SumRemoveAt(store, b, j);
    }
  }

  /** Rewriting the record under a key that is listed once moves the sum by
      the change of that record's amount. */
  lemma {:induction false} SumUpdate(store: map<string, Entry>, keys: seq<string>, key: string, t: BrandedToken)
    requires Distinct(keys) && key in keys
    ensures SumAmounts(store[key := Record(t)], keys) == SumAmounts(store, keys) - Amount(store, key) + t.GetAmount()
    decreases |keys|
  {
    var store' := store[key := Record(t)];
    var n := |keys|;
    var init := keys[..n - 1];
    assert Distinct(init);
    if keys[n - 1] == key {
      assert key !in init;
      SumFrame(store, store', init);
    } else {
      assert key in init;
      SumUpdate(store, init, key, t);
    }
  }

  /** A record rewritten under a key already in the store moves the total
      supply by the change of its amount. */
  lemma TotalSupplyAfterRewrite(store: map<string, Entry>, key: string, t: BrandedToken)
    requires key in store
    ensures TotalSupply(store[key := Record(t)]) == TotalSupply(store) - Amount(store, key) + t.GetAmount()
  {
    assert store[key := Record(t)].Keys == store.Keys;
    var keys := SortedKeys(store.Keys);
    AscendingDistinct(keys);
    SumUpdate(store, keys, key, t);
  }

  /** A record stored under a new key adds its amount to the total supply. */
  lemma TotalSupplyAfterInsert(store: map<string, Entry>, key: string, t: BrandedToken)
    requires key !in store
    ensures TotalSupply(store[key := Record(t)]) == TotalSupply(store) + t.GetAmount()
  {
    var store' := store[key := Record(t)];
    var old_keys := SortedKeys(store.Keys);
    var new_keys := SortedKeys(store'.Keys);
    AscendingDistinct(old_keys);
    AscendingDistinct(new_keys);
    assert Distinct(old_keys + [key]) by {
      forall p, q | 0 <= p < q < |old_keys| + 1
        ensures (old_keys + [key])[p] != (old_keys + [key])[q]
      {
        if q == |old_keys| {
          assert old_keys[p] in store;
        }
      }
    }
    SumPermutation(store', new_keys, old_keys + [key]);
    SumConcat(store', old_keys, [key]);
    SumFrame(store, store', old_keys);
    assert [key][..0] == [];
  }

  /** Removing a record takes its amount out of the total supply. */
  lemma TotalSupplyAfterDelete(store: map<string, Entry>, key: string)
    requires key in store
    ensures TotalSupply(store - {key}) == TotalSupply(store) - Amount(store, key)
  {
    if store[key].Record? {
      DeleteDecodable(store, key);
    } else {
      DeleteUndecodable(store, key);
    }
  }

  lemma DeleteDecodable(store: map<string, Entry>, key: string)
    requires key in store && store[key].Record?
    ensures TotalSupply(store - {key}) == TotalSupply(store) - Amount(store, key)
  {
    var rest := store - {key};
    assert rest[key := store[key]] == store;
    TotalSupplyAfterInsert(rest, key, store[key].token);
  }

  /** Undecodable bytes count as the zero record's amount, zero. */
  lemma DeleteUndecodable(store: map<string, Entry>, key: string)
    requires key in store && store[key].Undecodable?
    ensures TotalSupply(store - {key}) == TotalSupply(store)
  {
    var rest := store - {key};
    var t := NewBrandedToken();
    var blank := rest[key := Record(t)];
    TotalSupplyAfterInsert(rest, key, t);
    assert blank.Keys == store.Keys;
    TotalSupplyFrame(blank, store);
  }

  /** Two stores with the same keys and the same amounts have the same supply. */
  lemma TotalSupplyFrame(s1: map<string, Entry>, s2: map<string, Entry>)
    requires s1.Keys == s2.Keys
    requires forall key :: Amount(s1, key) == Amount(s2, key)
    ensures TotalSupply(s1) == TotalSupply(s2)
  {
    SumFrame(s1, s2, SortedKeys(s1.Keys));
  }

  /** An empty registry has no supply. */
  lemma TotalSupplyEmpty()
    ensures TotalSupply(map[]) == 0
  {
    assert SortedKeys({}) == [];
  }

  /** Token "a" with supply 10 and token "b" with supply 20 give a total of
      30; once the record of "a" is rewritten with amount 6 it is 26. */
  lemma SupplyScenario(ownerA: Addr, ownerB: Addr)
    ensures var s1 := map["a" := Record(BrandedToken(Coin("a", 10), ownerA))];
            var s2 := s1["b" := Record(BrandedToken(Coin("b", 20), ownerB))];
            var s3 := s2["a" := Record(BrandedToken(Coin("a", 6), ownerA))];
            TotalSupply(s2) == 30 && TotalSupply(s3) == 26
  {
    var s0: map<string, Entry> := map[];
    var s1 := s0["a" := Record(BrandedToken(Coin("a", 10), ownerA))];
    var s2 := s1["b" := Record(BrandedToken(Coin("b", 20), ownerB))];
    TotalSupplyEmpty();
    TotalSupplyAfterInsert(s0, "a", BrandedToken(Coin("a", 10), ownerA));
    TotalSupplyAfterInsert(s1, "b", BrandedToken(Coin("b", 20), ownerB));
    TotalSupplyAfterRewrite(s2, "a", BrandedToken(Coin("a", 6), ownerA));
  }
}
