/**
 * The mock token the contract's tests pay with: metadata fixed at
 * `initialize`, a balance per address, and a total supply that `mint` raises
 * and `transfer` leaves alone.
 */
module MockToken {
  import opened ContractTypes

  /** `balance(a)`: the stored balance, or 0 for an address never credited. */
  function BalanceIn(balances: map<Address, int>, a: Address): int {
    if a in balances then balances[a] else 0
  }

  /** The sum of all balances. */
  ghost function Sum(balances: map<Address, int>): int
    decreases |balances|
  {
    if balances == map[] then 0
    else
      var a :| a in balances;
      balances[a] + Sum(balances - {a})
  }

  /** The sum can be split at any address, not just the one `Sum` happens to pick. */
  lemma {:induction false} SumWithout(balances: map<Address, int>, a: Address)
    requires a in balances
    ensures Sum(balances) == balances[a] + Sum(balances - {a})
    decreases |balances|
  {
    var b :| b in balances && Sum(balances) == balances[b] + Sum(balances - {b});
    if b != a {
      SumWithout(balances - {b}, a);
      SumWithout(balances - {a}, b);
      assert balances - {b} - {a} == balances - {a} - {b};
    }
  }

  /** Setting one balance changes the sum by exactly the difference. */
  lemma SumUpdate(balances: map<Address, int>, a: Address, v: int)
    ensures Sum(balances[a := v]) == Sum(balances) - BalanceIn(balances, a) + v
  {
    var updated := balances[a := v];
    SumWithout(updated, a);
    assert updated - {a} == balances - {a};
    if a in balances {
      SumWithout(balances, a);
    } else {
      assert balances - {a} == balances;
    }
  }

  class Token {
    var admin: Address
    var decimals: nat
    var name: string
    var symbol: string
    var balances: map<Address, int>
    var totalSupply: int

    /** The ledger invariant: no balance is negative and the supply is the sum of the balances. */
    ghost predicate Valid()
      reads this
    {
      && (forall a :: a in balances ==> balances[a] >= 0)
      && totalSupply == Sum(balances)
    }

    /** `balance(a)`: the stored balance, 0 for an address never credited, and never negative. */
    function Balance(a: Address): (b: int)
      reads this
      ensures a in balances ==> b == balances[a]
      ensures a !in balances ==> b == 0
      ensures Valid() ==> b >= 0
    {
      BalanceIn(balances, a)
    }

    /** `initialize`: the metadata as given, no balances, no supply. */
    constructor Initialize(admin: Address, decimals: nat, name: string, symbol: string)
      ensures Valid()
      ensures this.admin == admin && this.decimals == decimals
      ensures this.name == name && this.symbol == symbol
      ensures balances == map[] && totalSupply == 0
    {
      this.admin := admin;
      this.decimals := decimals;
      this.name := name;
      this.symbol := symbol;
      balances := map[];
      totalSupply := 0;
    }

    /** `mint(to, amount)`: credits `to` and raises the supply by the same amount. */
    method Mint(to: Address, amount: int)
      requires Valid() && amount >= 0
      modifies this
      ensures Valid()
      ensures balances == old(balances)[to := old(Balance(to)) + amount]
      ensures totalSupply == old(totalSupply) + amount
      ensures admin == old(admin) && decimals == old(decimals)
      ensures name == old(name) && symbol == old(symbol)
    {
      SumUpdate(balances, to, Balance(to) + amount);
      balances := balances[to := Balance(to) + amount];
      totalSupply := totalSupply + amount;
    }

    /**
     * `transfer(from, to, amount)`: moves `amount` from one balance to the
     * other; the supply does not change. Spending more than the balance is a
     * failure the caller must avoid.
     */
    method Transfer(from: Address, to: Address, amount: int)
      requires Valid() && 0 <= amount <= Balance(from)
      modifies this
      ensures Valid()
      ensures from != to ==> Balance(from) == old(Balance(from)) - amount && Balance(to) == old(Balance(to)) + amount
      ensures from == to ==> Balance(from) == old(Balance(from))
      ensures forall a :: a != from && a != to ==> Balance(a) == old(Balance(a))
      ensures totalSupply == old(totalSupply)
      ensures admin == old(admin) && decimals == old(decimals)
      ensures name == old(name) && symbol == old(symbol)
    {
      SumUpdate(balances, from, Balance(from) - amount);
      balances := balances[from := Balance(from) - amount];
      SumUpdate(balances, to, Balance(to) + amount);
      balances := balances[to := Balance(to) + amount];
    }
  }

  /**
   * The mock-token test: initialize with 7 decimals, "Mock Token" and
   * "MOCK"; mint 1000 to one user; transfer 200 to another.
   */
  method ReplayMockTokenTest(admin: Address, user1: Address, user2: Address)
    returns (decimals: nat, name: string, symbol: string,
             mintedBalance: int, mintedSupply: int,
             balance1: int, balance2: int, supply: int)
    requires user1 != user2
    ensures decimals == 7 && name == "Mock Token" && symbol == "MOCK"
    ensures mintedBalance == 1000 && mintedSupply == 1000
    ensures balance1 == 800 && balance2 == 200 && supply == 1000
  {
    var token := new Token.Initialize(admin, 7, "Mock Token", "MOCK");
    decimals, name, symbol := token.decimals, token.name, token.symbol;
    token.Mint(user1, 1000);
    mintedBalance, mintedSupply := token.Balance(user1), token.totalSupply;
    token.Transfer(user1, user2, 200);
    balance1, balance2, supply := token.Balance(user1), token.Balance(user2), token.totalSupply;
  }
}
