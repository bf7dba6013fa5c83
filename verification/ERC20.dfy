/** The fungible-token ledger (`MockERC20`), with the error semantics of
    the OpenZeppelin 5 implementation it is built on: balances, allowances
    and a total supply that always equals the sum of all balances and
    stays within `uint256`. A reverted call changes nothing. */
module ERC20 {
  import opened Types

  /** The number of decimals the token reports. */
  const Decimals: nat := 8

  /** The custom errors of the ledger, with their arguments. */
  datatype Error =
    | ERC20InsufficientBalance(sender: Address, balance: Uint256, needed: Uint256)
    | ERC20InsufficientAllowance(spender: Address, allowance: Uint256, needed: Uint256)
    | ERC20InvalidSender(from: Address)
    | ERC20InvalidReceiver(to: Address)
    | ERC20InvalidApprover(approver: Address)
    | ERC20InvalidSpender(spenderAddress: Address)
    /** The checked addition of `mint` overflowing `uint256` (a panic). */
    | SupplyOverflow

  datatype Event =
    | Transfer(from: Address, to: Address, value: Uint256)
    | Approval(owner: Address, spender: Address, value: Uint256)

  /** The sum of all balances recorded in `m`. */
  ghost function Sum(m: map<Address, Uint256>): (s: int)
    ensures s >= 0
    decreases |m|
  {
    if m == map[] then 0 else var k :| k in m; m[k] + Sum(m - {k})
  }

  /** Any recorded balance can be split off the sum. */
  lemma {:induction false} SumRemove(m: map<Address, Uint256>, k: Address)
    requires k in m
    ensures Sum(m) == m[k] + Sum(m - {k})
    decreases |m|
  {
    var j :| j in m && Sum(m) == m[j] + Sum(m - {j});
    if j != k {
      SumRemove(m - {j}, k);
      SumRemove(m - {k}, j);
      assert (m - {j}) - {k} == (m - {k}) - {j};
    }
  }

  function BalanceIn(m: map<Address, Uint256>, a: Address): Uint256 {
    if a in m then m[a] else 0
  }

  /** Overwriting one balance changes the sum by the difference. */
  lemma SumUpdate(m: map<Address, Uint256>, k: Address, v: Uint256)
    ensures Sum(m[k := v]) == Sum(m) - BalanceIn(m, k) + v
  {
    SumRemove(m[k := v], k);
    assert m[k := v] - {k} == m - {k};
    if k in m {
      SumRemove(m, k);
    } else {
      assert m - {k} == m;
    }
  }

  /** No single balance exceeds the sum. */
  lemma BalanceBelowSum(m: map<Address, Uint256>, k: Address)
    ensures BalanceIn(m, k) <= Sum(m)
  {
    if k in m {
      SumRemove(m, k);
    }
  }

  /** The balances after taking `value` from `a`. The zero address stands
      for the supply: debiting it changes no balance and never records an
      entry for it. */
  function Debit(m: map<Address, Uint256>, a: Address, value: Uint256): (m': map<Address, Uint256>)
    requires a != ZeroAddress ==> value <= BalanceIn(m, a)
    ensures forall b :: BalanceIn(m', b) == BalanceIn(m, b) - (if b == a && a != ZeroAddress then value else 0)
    ensures ZeroAddress in m' <==> ZeroAddress in m
  {
    if a == ZeroAddress then m else m[a := BalanceIn(m, a) - value]
  }

  /** The balances after giving `value` to `a`; crediting the zero address
      changes no balance and never records an entry for it. */
  function Credit(m: map<Address, Uint256>, a: Address, value: Uint256): (m': map<Address, Uint256>)
    requires a != ZeroAddress ==> BalanceIn(m, a) + value <= MAX_UINT256
    ensures forall b :: BalanceIn(m', b) == BalanceIn(m, b) + (if b == a && a != ZeroAddress then value else 0)
    ensures ZeroAddress in m' <==> ZeroAddress in m
  {
    if a == ZeroAddress then m else m[a := BalanceIn(m, a) + value]
  }

  /** A debit takes the value out of the sum, unless it is from the supply. */
  lemma SumOfDebit(m: map<Address, Uint256>, a: Address, value: Uint256)
    requires a != ZeroAddress ==> value <= BalanceIn(m, a)
    ensures Sum(Debit(m, a, value)) == Sum(m) - (if a == ZeroAddress then 0 else value)
  {
    if a != ZeroAddress {
      SumUpdate(m, a, BalanceIn(m, a) - value);
    }
  }

  /** A credit adds the value to the sum, unless it is to the supply. */
  lemma SumOfCredit(m: map<Address, Uint256>, a: Address, value: Uint256)
    requires a != ZeroAddress ==> BalanceIn(m, a) + value <= MAX_UINT256
    ensures Sum(Credit(m, a, value)) == Sum(m) + (if a == ZeroAddress then 0 else value)
  {
    if a != ZeroAddress {
      SumUpdate(m, a, BalanceIn(m, a) + value);
    }
  }

  class Token {
    const name: string
    const symbol: string
    var balances: map<Address, Uint256>
    var allowances: map<(Address, Address), Uint256>
    var totalSupply: Uint256
    var log: seq<Event>

    /** The supply invariant: the total supply is the sum of all balances,
        and the zero address, which stands for the supply, holds none. */
    ghost predicate Valid()
      reads this
    {
      && Sum(balances) == totalSupply
      && ZeroAddress !in balances
    }

    /** Deployment with `(name, symbol)`: no tokens and no allowances. */
    constructor (name: string, symbol: string)
      ensures Valid()
      ensures this.name == name && this.symbol == symbol
      ensures balances == map[] && allowances == map[] && totalSupply == 0 && log == []
    {
      this.name, this.symbol := name, symbol;
      balances, allowances, totalSupply, log := map[], map[], 0, [];
    }

    /** Everything the ledger stores; a reverted call leaves it as it was. */
    function Storage(): (map<Address, Uint256>, map<(Address, Address), Uint256>, Uint256, seq<Event>)
      reads this
    {
      (balances, allowances, totalSupply, log)
    }

    /** `balanceOf(a)`: zero for an account never credited and for the zero
        address, and never more than the total supply. */
    function BalanceOf(a: Address): (b: Uint256)
      reads this
      ensures a !in balances ==> b == 0
      ensures Valid() ==> b <= totalSupply
      ensures Valid() && a == ZeroAddress ==> b == 0
    {
      BalanceBelowSum(balances, a);
      BalanceIn(balances, a)
    }

    /** `allowance(owner, spender)`: zero for a pair never approved. */
    function Allowance(owner: Address, spender: Address): (v: Uint256)
      reads this
      ensures (owner, spender) !in allowances ==> v == 0
    {
      if (owner, spender) in allowances then allowances[(owner, spender)] else 0
    }

    // ---- guards -------------------------------------------------------

    /** Why moving `value` from `from` to `to` would revert, if it would. */
    function TransferCheck(from: Address, to: Address, value: Uint256): Outcome<Error>
      reads this
    {
      if from == ZeroAddress then Revert(ERC20InvalidSender(ZeroAddress))
      else if to == ZeroAddress then Revert(ERC20InvalidReceiver(ZeroAddress))
      else if BalanceOf(from) < value then Revert(ERC20InsufficientBalance(from, BalanceOf(from), value))
      else Done
    }

    function MintCheck(to: Address, value: Uint256): Outcome<Error>
      reads this
    {
      if to == ZeroAddress then Revert(ERC20InvalidReceiver(ZeroAddress))
      else if totalSupply + value > MAX_UINT256 then Revert(SupplyOverflow)
      else Done
    }

    function BurnCheck(from: Address, value: Uint256): Outcome<Error>
      reads this
    {
      if from == ZeroAddress then Revert(ERC20InvalidSender(ZeroAddress))
      else if BalanceOf(from) < value then Revert(ERC20InsufficientBalance(from, BalanceOf(from), value))
      else Done
    }

    function ApproveCheck(owner: Address, spender: Address): Outcome<Error>
      reads this
    {
      if owner == ZeroAddress then Revert(ERC20InvalidApprover(ZeroAddress))
      else if spender == ZeroAddress then Revert(ERC20InvalidSpender(ZeroAddress))
      else Done
    }

    /** Spending an allowance: an unlimited allowance is never checked;
        a limited one must cover `value` and is then rewritten. */
    function SpendCheck(owner: Address, spender: Address, value: Uint256): Outcome<Error>
      reads this
    {
      var current := Allowance(owner, spender);
      if current == MAX_UINT256 then Done
      else if current < value then Revert(ERC20InsufficientAllowance(spender, current, value))
      else ApproveCheck(owner, spender)
    }

    function TransferFromCheck(spender: Address, from: Address, to: Address, value: Uint256): Outcome<Error>
      reads this
    {
      if SpendCheck(from, spender, value).Revert? then SpendCheck(from, spender, value)
      else TransferCheck(from, to, value)
    }

    // ---- the balance routine shared by mint, burn and transfer --------

    /** Moves `value` from `from` to `to`, where the zero address stands
        for the supply: from it is a mint, to it a burn. */
    method Update(from: Address, to: Address, value: Uint256)
      requires Valid()
      requires from != ZeroAddress ==> value <= BalanceOf(from)
      requires from == ZeroAddress ==> totalSupply + value <= MAX_UINT256
      modifies this
      ensures Valid()
      ensures totalSupply == old(totalSupply) + (if from == ZeroAddress then value else 0)
                                              - (if to == ZeroAddress then value else 0)
      ensures forall a :: a != ZeroAddress ==>
                BalanceOf(a) == old(BalanceOf(a)) - (if a == from then value else 0)
                                                  + (if a == to then value else 0)
      ensures BalanceOf(ZeroAddress) == old(BalanceOf(ZeroAddress))
      ensures allowances == old(allowances)
      ensures log == old(log) + [Event.Transfer(from, to, value)]
    {
      var debited := Debit(balances, from, value);
      SumOfDebit(balances, from, value);
      BalanceBelowSum(debited, to);
      SumOfCredit(debited, to, value);
      balances := Credit(debited, to, value);
      totalSupply := totalSupply + (if from == ZeroAddress then value else 0) - (if to == ZeroAddress then value else 0);
      log := log + [Event.Transfer(from, to, value)];
    }

    // ---- entry points -------------------------------------------------

    /** `mint(to, value)`. */
    method Mint(to: Address, value: Uint256) returns (r: Outcome<Error>)
      requires Valid()
      modifies this
      ensures Valid()
      ensures r == old(MintCheck(to, value))
      ensures r.Revert? ==> Storage() == old(Storage())
      ensures r.Done? ==>
        && totalSupply == old(totalSupply) + value
        && BalanceOf(to) == old(BalanceOf(to)) + value
        && (forall a :: a != to ==> BalanceOf(a) == old(BalanceOf(a)))
        && allowances == old(allowances)
        && log == old(log) + [Event.Transfer(ZeroAddress, to, value)]
    {
      r := MintCheck(to, value);
      if r.Done? {
        Update(ZeroAddress, to, value);
      }
    }

    /** `burn(value)` called by `caller`: burns the caller's own tokens. */
    method Burn(caller: Address, value: Uint256) returns (r: Outcome<Error>)
      requires Valid()
      modifies this
      ensures Valid()
      ensures r == old(BurnCheck(caller, value))
      ensures r.Revert? ==> Storage() == old(Storage())
      ensures r.Done? ==>
        && totalSupply == old(totalSupply) - value
        && BalanceOf(caller) == old(BalanceOf(caller)) - value
        && (forall a :: a != caller ==> BalanceOf(a) == old(BalanceOf(a)))
        && allowances == old(allowances)
        && log == old(log) + [Event.Transfer(caller, ZeroAddress, value)]
    {
      r := BurnCheck(caller, value);
      if r.Done? {
        Update(caller, ZeroAddress, value);
      }
    }

    /** `transfer(to, value)` called by `caller`. The supply is conserved. */
    method Transfer(caller: Address, to: Address, value: Uint256) returns (r: Outcome<Error>)
      requires Valid()
      modifies this
      ensures Valid()
      ensures r == old(TransferCheck(caller, to, value))
      ensures r.Revert? ==> Storage() == old(Storage())
      ensures r.Done? ==>
        && totalSupply == old(totalSupply)
        && (caller != to ==>
              BalanceOf(caller) == old(BalanceOf(caller)) - value && BalanceOf(to) == old(BalanceOf(to)) + value)
        && (caller == to ==> BalanceOf(caller) == old(BalanceOf(caller)))
        && (forall a :: a != caller && a != to ==> BalanceOf(a) == old(BalanceOf(a)))
        && allowances == old(allowances)
        && log == old(log) + [Event.Transfer(caller, to, value)]
    {
      r := TransferCheck(caller, to, value);
      if r.Done? {
        Update(caller, to, value);
      }
    }

    /** `approve(spender, value)` called by `caller`: the allowance is set,
        not added to. */
    method Approve(caller: Address, spender: Address, value: Uint256) returns (r: Outcome<Error>)
      requires Valid()
      modifies this
      ensures Valid()
      ensures r == old(ApproveCheck(caller, spender))
      ensures r.Revert? ==> Storage() == old(Storage())
      ensures r.Done? ==> Allowance(caller, spender) == value
      ensures r.Done? ==> forall o: Address, p: Address :: (o, p) != (caller, spender) ==>
                            Allowance(o, p) == old(Allowance(o, p))
      ensures r.Done? ==>
        && allowances == old(allowances)[(caller, spender) := value]
        && balances == old(balances) && totalSupply == old(totalSupply)
        && log == old(log) + [Approval(caller, spender, value)]
    {
      r := ApproveCheck(caller, spender);
      if r.Done? {
        allowances := allowances[(caller, spender) := value];
        log := log + [Approval(caller, spender, value)];
      }
    }

    /** `transferFrom(from, to, value)` called by `caller`: spends the
        caller's allowance over `from` (an unlimited allowance stays
        unlimited), then transfers. */
    method TransferFrom(caller: Address, from: Address, to: Address, value: Uint256) returns (r: Outcome<Error>)
      requires Valid()
      modifies this
      ensures Valid()
      ensures r == old(TransferFromCheck(caller, from, to, value))
      ensures r.Revert? ==> Storage() == old(Storage())
      ensures r.Done? ==>
        && totalSupply == old(totalSupply)
        && (from != to ==>
              BalanceOf(from) == old(BalanceOf(from)) - value && BalanceOf(to) == old(BalanceOf(to)) + value)
        && (from == to ==> BalanceOf(from) == old(BalanceOf(from)))
        && (forall a :: a != from && a != to ==> BalanceOf(a) == old(BalanceOf(a)))
        && Allowance(from, caller) == (if old(Allowance(from, caller)) == MAX_UINT256 then MAX_UINT256
                                       else old(Allowance(from, caller)) - value)
        && (forall o: Address, s: Address :: (o, s) != (from, caller) ==> Allowance(o, s) == old(Allowance(o, s)))
        && log == old(log) + [Event.Transfer(from, to, value)]
    {
      r := TransferFromCheck(caller, from, to, value);
      if r.Done? {
        var current := Allowance(from, caller);
        if current != MAX_UINT256 {
          allowances := allowances[(from, caller) := current - value];
        }
        Update(from, to, value);
      }
    }
  }
}
