/** The persisted entity of the module: a branded token is a coin (its
    denomination and issued amount) together with the account that owns it. */
module Types {

  /** An account address (`sdk.AccAddress`), a byte string. */
  type Addr = seq<bv8>

  /** `AccAddress.Empty`: the address has no bytes. */
  predicate Empty(a: Addr)
  {
    |a| == 0
  }

  /** The module's name, also the category of the events it emits. It is
      declared in the module's key file, which is not part of this model. */
  const ModuleName := "surprise"

  /** An `sdk.Coin`; the amount is an unbounded integer, as `sdk.Int` is. */
  datatype Coin = Coin(denom: string, amount: int)

  /** The stored record: the embedded coin and the owner. */
  datatype BrandedToken = BrandedToken(coin: Coin, owner: Addr)
  {
    function GetName(): (name: string)
      ensures name == coin.denom
    {
      coin.denom
    }

    function GetAmount(): (amount: int)
      ensures amount == coin.amount
    {
      coin.amount
    }

    function GetOwner(): (owner': Addr)
      ensures owner' == owner
    {
      owner
    }

    /** A copy of the record with another owner. The receiver is a value, so
        the record it is called on is left as it was. */
    function SetOwner(newOwner: Addr): (t: BrandedToken)
      ensures t.GetOwner() == newOwner
      ensures t.GetName() == GetName() && t.GetAmount() == GetAmount()
    {
      this.(owner := newOwner)
    }
  }

  /** The zero record: no name, no amount, no owner. */
  function NewBrandedToken(): (t: BrandedToken)
    ensures t.GetName() == "" && t.GetAmount() == 0 && Empty(t.GetOwner())
  {
    BrandedToken(Coin("", 0), [])
  }

  /** Setting the same owner twice is setting it once. */
  lemma SetOwnerIdempotent(t: BrandedToken, o: Addr)
    ensures t.SetOwner(o).SetOwner(o) == t.SetOwner(o)
  {
  }

  /** Of two owner changes only the last one is visible, and setting the owner
      a record already has gives the record back. */
  lemma SetOwnerLastWins(t: BrandedToken, o1: Addr, o2: Addr)
    ensures t.SetOwner(o1).SetOwner(o2) == t.SetOwner(o2)
    ensures t.SetOwner(t.GetOwner()) == t
  {
  }
}
