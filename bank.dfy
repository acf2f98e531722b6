/** The coin ledger the module issues its tokens on (the bank keeper). Its own
    arithmetic and its reasons for refusing a transfer (insufficient funds,
    an invalid coin) belong to another module, so each call takes that
    module's verdict as the parameter `accepted`; on acceptance the balance
    of the account in the coin's denomination moves by the coin's amount. */
module Bank {
  import opened Types

  /** One balance per account and denomination. */
  type Account = (Addr, string)

  /** The balance of an account in a ledger; an account never credited holds 0. */
  function BalanceIn(balances: map<Account, int>, account: Account): (n: int)
    ensures account !in balances ==> n == 0
  {
    if account in balances then balances[account] else 0
  }

  /** The ledger after `amount` is credited to `account`: that balance grows
      by `amount` and no other balance moves. */
  function Credit(balances: map<Account, int>, account: Account, amount: int): (r: map<Account, int>)
    ensures BalanceIn(r, account) == BalanceIn(balances, account) + amount
    ensures forall other :: other != account ==> BalanceIn(r, other) == BalanceIn(balances, other)
  {
    balances[account := BalanceIn(balances, account) + amount]
  }

  /** The ledger after `amount` is debited from `account`: that balance
      shrinks by `amount` and no other balance moves. */
  function Debit(balances: map<Account, int>, account: Account, amount: int): (r: map<Account, int>)
    ensures BalanceIn(r, account) == BalanceIn(balances, account) - amount
    ensures forall other :: other != account ==> BalanceIn(r, other) == BalanceIn(balances, other)
  {
    balances[account := BalanceIn(balances, account) - amount]
  }

  /** A debit of what was credited restores every balance. */
  lemma DebitUndoesCredit(balances: map<Account, int>, account: Account, amount: int)
    ensures forall a :: BalanceIn(Debit(Credit(balances, account, amount), account, amount), a) == BalanceIn(balances, a)
  {
    forall a
      ensures BalanceIn(Debit(Credit(balances, account, amount), account, amount), a) == BalanceIn(balances, a)
    {
      var credited := Credit(balances, account, amount);
      if a == account {
        assert BalanceIn(Debit(credited, account, amount), a) == BalanceIn(credited, a) - amount;
      } else {
        assert BalanceIn(Debit(credited, account, amount), a) == BalanceIn(credited, a);
      }
    }
  }

  class CoinKeeper {
    var balances: map<Account, int>

    constructor ()
      ensures balances == map[]
    {
      balances := map[];
    }

    /** `AddCoins(owner, coins)`: credit `coin` to `owner`; fails without
        effect when the ledger refuses. */
    method AddCoins(owner: Addr, coin: Coin, accepted: bool) returns (ok: bool)
      modifies this
      ensures ok == accepted
      ensures ok ==> balances == Credit(old(balances), (owner, coin.denom), coin.amount)
      ensures !ok ==> balances == old(balances)
    {
      ok := accepted;
      if ok {
        balances := Credit(balances, (owner, coin.denom), coin.amount);
      }
    }

    /** `SubtractCoins(owner, coins)`: debit `coin` from `owner`; fails
        without effect when the ledger refuses. */
    method SubtractCoins(owner: Addr, coin: Coin, accepted: bool) returns (ok: bool)
      modifies this
      ensures ok == accepted
      ensures ok ==> balances == Debit(old(balances), (owner, coin.denom), coin.amount)
      ensures !ok ==> balances == old(balances)
    {
      ok := accepted;
      if ok {
        balances := Debit(balances, (owner, coin.denom), coin.amount);
      }
    }
  }
}
