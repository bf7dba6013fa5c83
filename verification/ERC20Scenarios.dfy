/** The fungible token's documented scenarios as verified examples, each
    on a freshly deployed `("TestToken", "TTK")` token, for every choice
    of distinct non-zero accounts. Amounts are in units of 10^18 of the
    smallest denomination, as in the scenarios. */
module ERC20Scenarios {
  import opened Types
  import opened ERC20

  const Unit: Uint256 := 1_000_000_000_000_000_000

  method Metadata() returns (name: string, symbol: string, decimals: nat)
    ensures name == "TestToken" && symbol == "TTK" && decimals == 8
  {
    var t := new Token("TestToken", "TTK");
    name, symbol, decimals := t.name, t.symbol, Decimals;
  }

  method MintCredits(holder: Address) returns (balance: Uint256, supply: Uint256)
    requires holder != ZeroAddress
    ensures balance == 100 * Unit && supply == 100 * Unit
  {
    var t := new Token("TestToken", "TTK");
    var _ := t.Mint(holder, 100 * Unit);
    balance, supply := t.BalanceOf(holder), t.totalSupply;
  }

  method BurnHalf(owner: Address) returns (r: Outcome<Error>, balance: Uint256, supply: Uint256)
    requires owner != ZeroAddress
    ensures r == Done && balance == 50 * Unit && supply == 50 * Unit
  {
    var t := new Token("TestToken", "TTK");
    var _ := t.Mint(owner, 100 * Unit);
    r := t.Burn(owner, 100 * Unit / 2);
    balance, supply := t.BalanceOf(owner), t.totalSupply;
  }

  method TransferHalf(owner: Address, other: Address) returns (r: Outcome<Error>, mine: Uint256, theirs: Uint256)
    requires owner != ZeroAddress && other != ZeroAddress && owner != other
    ensures r == Done && mine == 50 * Unit && theirs == 50 * Unit
  {
    var t := new Token("TestToken", "TTK");
    var _ := t.Mint(owner, 100 * Unit);
    r := t.Transfer(owner, other, 100 * Unit / 2);
    mine, theirs := t.BalanceOf(owner), t.BalanceOf(other);
  }

  method TransferWithoutBalance(owner: Address, other: Address) returns (r: Outcome<Error>)
    requires owner != ZeroAddress && other != ZeroAddress
    ensures r == Revert(ERC20InsufficientBalance(owner, 0, 50 * Unit))
  {
    var t := new Token("TestToken", "TTK");
    r := t.Transfer(owner, other, 50 * Unit);
  }

  method ApproveSpender(owner: Address, spender: Address) returns (r: Outcome<Error>, allowance: Uint256)
    requires owner != ZeroAddress && spender != ZeroAddress
    ensures r == Done && allowance == 30 * Unit
  {
    var t := new Token("TestToken", "TTK");
    r := t.Approve(owner, spender, 30 * Unit);
    allowance := t.Allowance(owner, spender);
  }

  method SpendWholeAllowance(owner: Address, other: Address, spender: Address)
    returns (r: Outcome<Error>, theirs: Uint256, allowance: Uint256)
    requires owner != ZeroAddress && other != ZeroAddress && spender != ZeroAddress
    requires owner != other
    ensures r == Done && theirs == 50 * Unit && allowance == 0
  {
    var t := new Token("TestToken", "TTK");
    var _ := t.Mint(owner, 100 * Unit);
    assert t.BalanceOf(owner) == 100 * Unit && t.BalanceOf(other) == 0;
    var _ := t.Approve(owner, spender, 100 * Unit / 2);
    assert t.BalanceOf(owner) == 100 * Unit && t.BalanceOf(other) == 0 && t.Allowance(owner, spender) == 50 * Unit;
    r := t.TransferFrom(spender, owner, other, 100 * Unit / 2);
    theirs, allowance := t.BalanceOf(other), t.Allowance(owner, spender);
  }

  method SpendWithoutAllowance(owner: Address, other: Address, spender: Address) returns (r: Outcome<Error>)
    requires owner != ZeroAddress && other != ZeroAddress && spender != ZeroAddress
    ensures r == Revert(ERC20InsufficientAllowance(spender, 0, 50 * Unit))
  {
    var t := new Token("TestToken", "TTK");
    var _ := t.Mint(owner, 50 * Unit);
    r := t.TransferFrom(spender, owner, other, 50 * Unit);
  }

  /** An allowance of the largest uint256 is never decreased by spending. */
  method UnlimitedAllowance(owner: Address, spender: Address)
    returns (before: Uint256, r: Outcome<Error>, after: Uint256)
    requires owner != ZeroAddress && spender != ZeroAddress && owner != spender
    ensures before == MAX_UINT256 && r == Done && after == MAX_UINT256
  {
    var t := new Token("TestToken", "TTK");
    var _ := t.Approve(owner, spender, MAX_UINT256);
    before := t.Allowance(owner, spender);
    var _ := t.Mint(owner, 100 * Unit);
    r := t.TransferFrom(spender, owner, spender, 10 * Unit);
    after := t.Allowance(owner, spender);
  }
}
