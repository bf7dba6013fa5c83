/** The registry's documented scenarios as verified examples: each method
    replays one scenario on a freshly deployed registry and its `ensures`
    states the answers the scenario expects. Accounts are parameters, so
    each example holds for every choice of distinct non-zero accounts and
    for either re-minting policy. */
module ERC721Scenarios {
  import opened Types
  import opened ERC721

  const Id: TokenId := 2

  method MintThenOwnerOf(remint: bool, owner: Address)
    returns (ownerOf: Result<Address, Error>, balance: Result<nat, Error>, again: Outcome<Error>)
    requires owner != ZeroAddress
    ensures ownerOf == Ok(owner) && balance == Ok(1)
    ensures again == Revert(TokenAlreadyMinted) && Reason(again.error) == "Token already minted"
  {
    var t := new Token(remint);
    var _ := t.Mint(owner, Id);
    ownerOf := t.OwnerOf(Id);
    balance := t.BalanceOf(owner);
    again := t.Mint(owner, Id);
  }

  method SafeMintThenOwnerOf(remint: bool, owner: Address)
    returns (ownerOf: Result<Address, Error>, balance: Result<nat, Error>, again: Outcome<Error>)
    requires owner != ZeroAddress
    ensures ownerOf == Ok(owner) && balance == Ok(1)
    ensures again == Revert(TokenAlreadyMinted)
  {
    var t := new Token(remint);
    var _ := t.SafeMint(owner, Id, ExternallyOwned);
    ownerOf := t.OwnerOf(Id);
    balance := t.BalanceOf(owner);
    again := t.SafeMint(owner, Id, ExternallyOwned);
  }

  method MintToZero(remint: bool) returns (r: Outcome<Error>, safe: Outcome<Error>)
    ensures r == Revert(MintToZeroAddress) && Reason(r.error) == "Mint to the zero address"
    ensures safe == Revert(MintToZeroAddress)
  {
    var t := new Token(remint);
    r := t.Mint(ZeroAddress, Id);
    safe := t.SafeMint(ZeroAddress, Id, ExternallyOwned);
  }

  method SafeMintToNonReceiver(remint: bool, receiver: Address)
    returns (r: Outcome<Error>, ownerOf: Result<Address, Error>)
    requires receiver != ZeroAddress
    ensures r == Revert(NonReceiver) && Reason(r.error) == "Non erc721 receiver!"
    ensures ownerOf == Err(TokenDoesNotExist)
  {
    var t := new Token(remint);
    r := t.SafeMint(receiver, Id, Receiver(false));
    ownerOf := t.OwnerOf(Id);
  }

  method SafeMintToReceiver(remint: bool, receiver: Address)
    returns (r: Outcome<Error>, events: seq<Event>, ownerOf: Result<Address, Error>, balance: Result<nat, Error>)
    requires receiver != ZeroAddress
    ensures r == Done && events == [Transfer(ZeroAddress, receiver, Id)]
    ensures ownerOf == Ok(receiver) && balance == Ok(1)
  {
    var t := new Token(remint);
    r := t.SafeMint(receiver, Id, Receiver(true));
    events := t.log;
    ownerOf := t.OwnerOf(Id);
    balance := t.BalanceOf(receiver);
  }

  method BurnByStranger(remint: bool, owner: Address, other: Address) returns (r: Outcome<Error>)
    requires owner != ZeroAddress && other != owner
    ensures r == Revert(NotOwnerOrApproved) && Reason(r.error) == "Not an owner or approved!"
  {
    var t := new Token(remint);
    var _ := t.Mint(owner, Id);
    r := t.Burn(other, Id);
  }

  method BurnByOwner(remint: bool, owner: Address)
    returns (r: Outcome<Error>, ownerOf: Result<Address, Error>, balance: Result<nat, Error>)
    requires owner != ZeroAddress
    ensures r == Done && ownerOf == Err(TokenDoesNotExist) && balance == Ok(0)
    ensures Reason(ownerOf.error) == "Token does not exist!"
  {
    var t := new Token(remint);
    var _ := t.Mint(owner, Id);
    r := t.Burn(owner, Id);
    ownerOf := t.OwnerOf(Id);
    balance := t.BalanceOf(owner);
  }

  method TransferMissingToken(remint: bool, caller: Address, from: Address, to: Address)
    returns (r: Outcome<Error>, safe: Outcome<Error>)
    ensures r == Revert(TokenDoesNotExist) && safe == Revert(TokenDoesNotExist)
  {
    var t := new Token(remint);
    r := t.TransferFrom(caller, from, to, Id);
    safe := t.SafeTransferFrom(caller, from, to, Id, ExternallyOwned);
  }

  method TransferByStranger(remint: bool, caller: Address, holder: Address, to: Address)
    returns (r: Outcome<Error>, safe: Outcome<Error>)
    requires holder != ZeroAddress && caller != holder
    ensures r == Revert(NotOwnerOrApproved) && safe == Revert(NotOwnerOrApproved)
  {
    var t := new Token(remint);
    var _ := t.Mint(holder, Id);
    r := t.TransferFrom(caller, holder, to, Id);
    safe := t.SafeTransferFrom(caller, holder, to, Id, ExternallyOwned);
  }

  method TransferByOwner(remint: bool, holder: Address, to: Address)
    returns (r: Outcome<Error>, ownerOf: Result<Address, Error>, balance: Result<nat, Error>)
    requires holder != ZeroAddress && to != ZeroAddress && to != holder
    ensures r == Done && ownerOf == Ok(to) && balance == Ok(1)
  {
    var t := new Token(remint);
    var _ := t.Mint(holder, Id);
    r := t.TransferFrom(holder, holder, to, Id);
    ownerOf := t.OwnerOf(Id);
    balance := t.BalanceOf(to);
  }

  method SafeTransferByOwner(remint: bool, holder: Address, to: Address)
    returns (r: Outcome<Error>, ownerOf: Result<Address, Error>, balance: Result<nat, Error>)
    requires holder != ZeroAddress && to != ZeroAddress && to != holder
    ensures r == Done && ownerOf == Ok(to) && balance == Ok(1)
  {
    var t := new Token(remint);
    var _ := t.Mint(holder, Id);
    r := t.SafeTransferFrom(holder, holder, to, Id, ExternallyOwned);
    ownerOf := t.OwnerOf(Id);
    balance := t.BalanceOf(to);
  }

  method SafeTransferToNonReceiver(remint: bool, holder: Address, receiver: Address)
    returns (r: Outcome<Error>, ownerOf: Result<Address, Error>)
    requires holder != ZeroAddress && receiver != ZeroAddress && receiver != holder
    ensures r == Revert(NonReceiver) && ownerOf == Ok(holder)
  {
    var t := new Token(remint);
    var _ := t.Mint(holder, Id);
    r := t.SafeTransferFrom(holder, holder, receiver, Id, Receiver(false));
    ownerOf := t.OwnerOf(Id);
  }

  method SafeTransferToReceiver(remint: bool, holder: Address, receiver: Address)
    returns (r: Outcome<Error>, lastEvent: Event, ownerOf: Result<Address, Error>, balance: Result<nat, Error>)
    requires holder != ZeroAddress && receiver != ZeroAddress && receiver != holder
    ensures r == Done && lastEvent == Transfer(holder, receiver, Id)
    ensures ownerOf == Ok(receiver) && balance == Ok(1)
  {
    var t := new Token(remint);
    var _ := t.Mint(holder, Id);
    r := t.SafeTransferFrom(holder, holder, receiver, Id, Receiver(true));
    lastEvent := t.log[|t.log| - 1];
    ownerOf := t.OwnerOf(Id);
    balance := t.BalanceOf(receiver);
  }

  method ApproveMissingToken(remint: bool, caller: Address, spender: Address) returns (r: Outcome<Error>)
    ensures r == Revert(TokenDoesNotExist)
  {
    var t := new Token(remint);
    r := t.Approve(caller, spender, Id);
  }

  method ApproveOwnerItself(remint: bool, owner: Address) returns (r: Outcome<Error>)
    requires owner != ZeroAddress
    ensures r == Revert(ApproveToOwner) && Reason(r.error) == "Cannot approve to self"
  {
    var t := new Token(remint);
    var _ := t.Mint(owner, Id);
    r := t.Approve(owner, owner, Id);
  }

  method ApproveAnother(remint: bool, owner: Address, spender: Address)
    returns (r: Outcome<Error>, approved: Result<Address, Error>)
    requires owner != ZeroAddress && spender != ZeroAddress && spender != owner
    ensures r == Done && approved == Ok(spender)
  {
    var t := new Token(remint);
    var _ := t.Mint(owner, Id);
    r := t.Approve(owner, spender, Id);
    approved := t.GetApproved(Id);
  }

  method ApprovedSpenderBurns(remint: bool, owner: Address, spender: Address)
    returns (r: Outcome<Error>, ownerOf: Result<Address, Error>, approved: Result<Address, Error>,
             balance: Result<nat, Error>)
    requires owner != ZeroAddress && spender != ZeroAddress && spender != owner
    ensures r == Done && ownerOf == Err(TokenDoesNotExist) && approved == Err(TokenDoesNotExist)
    ensures balance == Ok(0)
  {
    var t := new Token(remint);
    var _ := t.Mint(owner, Id);
    var _ := t.Approve(owner, spender, Id);
    r := t.Burn(spender, Id);
    ownerOf := t.OwnerOf(Id);
    approved := t.GetApproved(Id);
    balance := t.BalanceOf(owner);
  }

  method ApprovedSpenderWrongFrom(remint: bool, owner: Address, spender: Address, to: Address)
    returns (r: Outcome<Error>)
    requires owner != ZeroAddress && spender != ZeroAddress && spender != owner
    ensures r == Revert(NotOwner) && Reason(r.error) == "Not an owner!"
  {
    var t := new Token(remint);
    var _ := t.Mint(owner, Id);
    var _ := t.Approve(owner, spender, Id);
    r := t.TransferFrom(spender, spender, to, Id);
  }

  method ApprovedSpenderToZero(remint: bool, owner: Address, spender: Address) returns (r: Outcome<Error>)
    requires owner != ZeroAddress && spender != ZeroAddress && spender != owner
    ensures r == Revert(TransferToZeroAddress) && Reason(r.error) == "To cannot be zero address!"
  {
    var t := new Token(remint);
    var _ := t.Mint(owner, Id);
    var _ := t.Approve(owner, spender, Id);
    r := t.TransferFrom(spender, owner, ZeroAddress, Id);
  }

  method ApprovedSpenderToSender(remint: bool, owner: Address, spender: Address) returns (r: Outcome<Error>)
    requires owner != ZeroAddress && spender != ZeroAddress && spender != owner
    ensures r == Revert(TransferToSameAddress) && Reason(r.error) == "Transfer to the same address!"
  {
    var t := new Token(remint);
    var _ := t.Mint(owner, Id);
    var _ := t.Approve(owner, spender, Id);
    r := t.TransferFrom(spender, owner, owner, Id);
  }

  method ApprovedSpenderTransfers(remint: bool, owner: Address, spender: Address, to: Address)
    returns (r: Outcome<Error>, ownerOf: Result<Address, Error>, balance: Result<nat, Error>)
    requires owner != ZeroAddress && spender != ZeroAddress && spender != owner && to != ZeroAddress && to != owner
    ensures r == Done && ownerOf == Ok(to) && balance == Ok(1)
  {
    var t := new Token(remint);
    var _ := t.Mint(owner, Id);
    var _ := t.Approve(owner, spender, Id);
    r := t.TransferFrom(spender, owner, to, Id);
    ownerOf := t.OwnerOf(Id);
    balance := t.BalanceOf(to);
  }

  method OperatorIsSelf(remint: bool, account: Address) returns (r: Outcome<Error>)
    ensures r == Revert(ApproveSelfAsOperator) && Reason(r.error) == "You cannot approve yourself!"
  {
    var t := new Token(remint);
    r := t.SetApprovalForAll(account, account, true);
  }

  method OperatorSetAndRevoke(remint: bool, owner: Address, operator: Address)
    returns (afterSet: bool, afterRevoke: bool)
    requires operator != ZeroAddress && operator != owner
    ensures afterSet && !afterRevoke
  {
    var t := new Token(remint);
    var _ := t.SetApprovalForAll(owner, operator, true);
    afterSet := t.IsApprovedForAll(owner, operator);
    var _ := t.SetApprovalForAll(owner, operator, false);
    afterRevoke := t.IsApprovedForAll(owner, operator);
  }

  method OperatorApproves(remint: bool, owner: Address, operator: Address, spender: Address)
    returns (r: Outcome<Error>, approved: Result<Address, Error>)
    requires owner != ZeroAddress && operator != ZeroAddress && operator != owner && spender != ZeroAddress && spender != owner
    ensures r == Done && approved == Ok(spender)
  {
    var t := new Token(remint);
    var _ := t.Mint(owner, Id);
    var _ := t.SetApprovalForAll(owner, operator, true);
    r := t.Approve(operator, spender, Id);
    approved := t.GetApproved(Id);
  }

  method OperatorBurns(remint: bool, owner: Address, operator: Address)
    returns (r: Outcome<Error>, ownerOf: Result<Address, Error>, balance: Result<nat, Error>)
    requires owner != ZeroAddress && operator != ZeroAddress && operator != owner
    ensures r == Done && ownerOf == Err(TokenDoesNotExist) && balance == Ok(0)
  {
    var t := new Token(remint);
    var _ := t.Mint(owner, Id);
    var _ := t.SetApprovalForAll(owner, operator, true);
    r := t.Burn(operator, Id);
    ownerOf := t.OwnerOf(Id);
    balance := t.BalanceOf(owner);
  }

  method OperatorTransfers(remint: bool, owner: Address, operator: Address, to: Address)
    returns (r: Outcome<Error>, ownerOf: Result<Address, Error>, balance: Result<nat, Error>)
    requires owner != ZeroAddress && operator != ZeroAddress && operator != owner && to != ZeroAddress && to != owner
    ensures r == Done && ownerOf == Ok(to) && balance == Ok(1)
  {
    var t := new Token(remint);
    var _ := t.Mint(owner, Id);
    var _ := t.SetApprovalForAll(owner, operator, true);
    r := t.TransferFrom(operator, owner, to, Id);
    ownerOf := t.OwnerOf(Id);
    balance := t.BalanceOf(to);
  }
}
