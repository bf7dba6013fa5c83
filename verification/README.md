# books-solidity contracts in Dafny

This project models the contracts of a Solidity book-catalogue project:

- an ERC-721 token registry with its enumeration and metadata extensions;
- ERC-165 interface detection;
- the `BooksCollection` catalogue, which stores a book record with every token;
- an ERC-20 ledger;
- single-owner (`Ownable`) access control;
- role-based access control.

The Solidity sources of the contracts are not part of this model. The behaviour modelled is what the repository's Hardhat scenarios under `test/` pin down: the exact revert reasons, the state after each call and the events. Where those scenarios are silent, it follows EIP-721, EIP-20, EIP-165 and OpenZeppelin 5.

Every contract is a `class` whose fields are the contract's storage and whose methods are its external functions:

- `ERC721.Token` holds the ownership table, balances, approvals, operator approvals and an event log.
- `ERC721Enumerable.EnumerableToken` adds the dense global list, the per-owner lists and their position maps.
- `ERC721Metadata.MetadataToken` adds the name, the symbol and the base URI.
- `BooksCollection.Collection` adds the book records.
- `ERC20.Token`, `Ownable.Ownable` and `RoleAccessControl.RoleAccessControl` model the other contracts.

The token and ledger classes (`ERC721.Token`, `ERC721Enumerable.EnumerableToken`, `BooksCollection.Collection` and `ERC20.Token`) each have a `Valid()` invariant that every mutating method keeps. `Ownable.Ownable` and `RoleAccessControl.RoleAccessControl` have a `Valid()` that ties their state to their event log. For `Ownable`, the owner is the new owner of the last `OwnershipTransferred` event, and the events chain from the zero address. For `RoleAccessControl`, an account holds a role exactly when the latest grant or revocation of that pair is a grant, and a role's admin is the one its latest `RoleAdminChanged` installed, or the default admin role. Every mutating method of every class states its whole effect:

- the returned `Outcome` is `Done`, or `Revert(error)` with the error the contract raises;
- after a revert, the storage is exactly as it was;
- after a success, the new storage is stated in terms of the old.

Safe mints and safe transfers first apply their effects, then consult the receiver and, on rejection, roll the storage back. This matches the EVM's all-or-nothing revert.

The properties proved:

- the registry's balances always count the tokens owned;
- the enumeration lists enumerate exactly the existing tokens, and each owner's list exactly that owner's tokens;
- a balance equals the length of its owner's list;
- decimal rendering round-trips;
- each ERC-165 identifier is the exclusive-or of its interface's selectors;
- the ERC-20 total supply is the sum of all balances, and the zero address, which stands for the supply, holds no balance;
- the owner and every role membership and admin role are what the event log says.

Each scenario of the test suite is replayed by a method in a `…Scenarios` module; its `ensures` states the answers the scenario expects. Accounts and role identifiers are parameters, so each example holds for every choice of them that its preconditions allow.

## Model

| member | source | states |
|---|---|---|
| ERC721.MoveKeepsBalancesCounting | test/tokens/ERC721/ERC721.ts:172-187 | moving a token between accounts, minting it or burning it, with the matching balance updates, keeps every balance equal to the number of tokens its account owns |
| ERC721.Token.constructor | test/tokens/ERC721/ERC721.ts:6-22 | a new registry is valid and empty: no owners, balances, approvals, burned identifiers or events |
| ERC721.Token.OwnerOf | test/tokens/ERC721/ERC721.ts:128-142 | `ownerOf` answers exactly for existing tokens, with a non-zero owner that owns the token; otherwise it reverts "Token does not exist!" |
| ERC721.Token.BalanceOf | test/tokens/ERC721/ERC721.ts:25-39 | `balanceOf` is the number of tokens the account owns; it reverts for the zero address |
| ERC721.Token.GetApproved | test/tokens/ERC721/ERC721.ts:333-344 | `getApproved` answers exactly for existing tokens (its value is the spender `approve` last set, see `ERC721.Token.Approve`); a non-zero caller may move a token iff it is the owner, the answered approved spender or an operator of the owner |
| ERC721.Token.Update | test/tokens/ERC721/ERC721.ts:172-187 | the shared effect routine moves the token, clears its approval, decrements the sender's and increments the receiver's balance, records burns and emits `Transfer`, keeping the invariant |
| ERC721.Token.Mint | test/tokens/ERC721/ERC721.ts:25-39 | reverts "Mint to the zero address" or "Token already minted" with storage unchanged; otherwise `to` owns the token, its balance rises by one, all else is unchanged and `Transfer(0, to, id)` is emitted |
| ERC721.Token.SafeMint | test/tokens/ERC721/ERC721.ts:41-112 | as `Mint`, and a receiver that rejects the token makes it revert "Non erc721 receiver!" with storage unchanged |
| ERC721.Token.TransferFrom | test/tokens/ERC721/ERC721.ts:146-187 | reverts in this order with storage unchanged: token missing, caller not owner/approved/operator, `from` not the owner, `to` zero, `to == from`; otherwise ownership and both balances move, the approval is cleared and `Transfer` is emitted |
| ERC721.Token.SafeTransferFrom | test/tokens/ERC721/ERC721.ts:191-308 | as `TransferFrom`, and a receiver that rejects the token makes it revert "Non erc721 receiver!" with storage unchanged |
| ERC721.Token.Burn | test/tokens/ERC721/ERC721.ts:114-142 | reverts for a missing token or an unauthorised caller with storage unchanged; otherwise the token and its approval disappear, the owner's balance drops by one and `Transfer(owner, 0, id)` is emitted |
| ERC721.Token.Approve | test/tokens/ERC721/ERC721.ts:312-344 | reverts for a missing token, for the owner as spender ("Cannot approve to self") and for a caller that is neither owner nor operator; otherwise `getApproved(id)` answers the spender, `getApproved` of every other token is unchanged, only the token's approval changes and `Approval` is emitted |
| ERC721.Token.IsApprovedForAll | test/tokens/ERC721/ERC721.ts:445-455 | `isApprovedForAll(owner, operator)` is false for a pair whose flag was never set; otherwise it is the flag `setApprovalForAll` last set (see `ERC721.Token.SetApprovalForAll`) |
| ERC721.Token.SetApprovalForAll | test/tokens/ERC721/ERC721.ts:437-455 | reverts "You cannot approve yourself!" for the caller as operator; otherwise `isApprovedForAll(caller, operator)` is the given flag, `isApprovedForAll` of every other pair is unchanged, only that flag is stored and `ApprovalForAll` is emitted |
| Enumeration.SwapAndPop | test/tokens/ERC721/ERC721Enumerable.ts:176-196 | removal by swap-and-pop shortens the list by one, keeps every other position and moves the last entry into the hole |
| Enumeration.SwapAndPopIndex | test/tokens/ERC721/ERC721Enumerable.ts:176-196 | after swap-and-pop the removed identifier has no position and every identifier other than the moved one keeps its position |
| Enumeration.PushKeepsIndexes | test/tokens/ERC721/ERC721Enumerable.ts:36-57 | appending a new identifier and recording its position keeps the list an exact, positioned enumeration of the grown set |
| Enumeration.SwapAndPopKeepsIndexes | test/tokens/ERC721/ERC721Enumerable.ts:149-196 | removing an identifier by swap-and-pop keeps the list an exact, positioned enumeration of the shrunk set |
| Enumeration.IndexesFrame | test/tokens/ERC721/ERC721Enumerable.ts:102-130 | a list stays indexed under a position map that agrees on its own identifiers, so other owners' updates leave it intact |
| Enumeration.IndexesSize | test/tokens/ERC721/ERC721Enumerable.ts:36-57 | an indexed list is exactly as long as the set it enumerates |
| Enumeration.IndexesEnumerate | test/tokens/ERC721/ERC721Enumerable.ts:76-100 | an indexed list has no repeated entry and its entries are exactly the enumerated set |
| ERC721Enumerable.AddToOwnerKeepsIndexed | test/tokens/ERC721/ERC721Enumerable.ts:102-130 | giving a new token to an owner keeps every owner's list an exact enumeration of that owner's tokens |
| ERC721Enumerable.AddTokenKeepsIndexed | test/tokens/ERC721/ERC721Enumerable.ts:36-57 | a new token appended to the global list and its owner's list keeps both exact, grows the owner's list by that token and leaves every other list unchanged |
| ERC721Enumerable.RemoveFromOwnerKeepsIndexed | test/tokens/ERC721/ERC721Enumerable.ts:149-174 | taking a token from its owner by swap-and-pop keeps every owner's list exact |
| ERC721Enumerable.MoveBetweenOwnersKeepsIndexed | test/tokens/ERC721/ERC721.ts:172-187 | moving a token to another account keeps every owner's list exact: the sender's list loses it by swap-and-pop, the receiver's list gains it at the end, other lists are unchanged |
| ERC721Enumerable.EnumerableToken.constructor | test/tokens/ERC721/ERC721Enumerable.ts:6-13 | a new enumerable registry is valid, with no tokens, no burned identifiers, no events, an empty global list and no owner lists |
| ERC721Enumerable.EnumerableToken.TotalSupply | test/tokens/ERC721/ERC721Enumerable.ts:36-57 | `totalSupply` is the number of existing tokens |
| ERC721Enumerable.EnumerableToken.TokenByIndex | test/tokens/ERC721/ERC721Enumerable.ts:59-100 | `tokenByIndex(i)` answers iff `i < totalSupply`, with the existing token at position `i` of the global list, and reverts "Index out of bounds" otherwise |
| ERC721Enumerable.EnumerableToken.TokenOfOwnerByIndex | test/tokens/ERC721/ERC721Enumerable.ts:102-147 | `tokenOfOwnerByIndex(owner, i)` answers iff `i` is below the owner's balance, with the token of `owner` at position `i` of its list, and reverts "Index out of bounds" otherwise |
| ERC721Enumerable.EnumerableToken.Mint | test/tokens/ERC721/ERC721Enumerable.ts:36-57 | the registry mint, and on success the token is appended to the global list and to the receiver's list, other lists unchanged |
| ERC721Enumerable.EnumerableToken.SafeMint | test/tokens/ERC721/ERC721Enumerable.ts:198-252 | the registry safe mint with the list appends; a rejecting receiver reverts "Non erc721 receiver!" with registry and lists unchanged |
| ERC721Enumerable.EnumerableToken.TransferFrom | test/tokens/ERC721/ERC721.ts:172-187 | the registry transfer; on success the global list is unchanged, the token leaves the sender's list by swap-and-pop and joins the end of the receiver's |
| ERC721Enumerable.EnumerableToken.SafeTransferFrom | test/tokens/ERC721/ERC721.ts:249-308 | the transfer with its list effects; a rejecting receiver reverts with registry and lists unchanged |
| ERC721Enumerable.EnumerableToken.Burn | test/tokens/ERC721/ERC721Enumerable.ts:149-196 | the registry burn; on success the token leaves the global list and its owner's list by swap-and-pop, other lists unchanged |
| ERC721Enumerable.EnumerableToken.MintBatch | test/tokens/ERC721/ERC721Enumerable.ts:15-31 | a batch of (safe) mints in order: distinct fresh identifiers to an accepting account all land, in order, at the end of the global list and the receiver's list; a batch to the zero address or a rejecting contract changes nothing and reports the first revert |
| ERC721Enumerable.BalanceIsListLength | test/tokens/ERC721/ERC721Enumerable.ts:132-147 | every balance equals the length of its owner's list |
| ERC721Enumerable.EnumerationIsExact | test/tokens/ERC721/ERC721Enumerable.ts:36-100 | reading the global list below `totalSupply` yields every existing token exactly once |
| ERC721Metadata.ToDecimal | test/tokens/ERC721/ERC721Metadata.ts:21-37 | the decimal rendering is a non-empty string of digits with no leading zero |
| ERC721Metadata.DecimalRoundTrip | test/tokens/ERC721/ERC721Metadata.ts:21-37 | reading the decimal rendering back gives the number |
| ERC721Metadata.DecimalInjective | test/tokens/ERC721/ERC721Metadata.ts:21-37 | distinct identifiers have distinct renderings |
| ERC721Metadata.TokenURIFor | test/tokens/ERC721/ERC721Metadata.ts:53-67 | an empty base URI gives an empty URI; otherwise the URI starts with the base and continues with digits only |
| ERC721Metadata.TokenURIIdentifiesToken | test/tokens/ERC721/ERC721Metadata.ts:21-37 | under a non-empty base, the part after the base reads back as the identifier |
| ERC721Metadata.MetadataToken.constructor | test/tokens/ERC721/ERC721Metadata.ts:21-37 | name, symbol and base URI are the deployment arguments and no token exists |
| ERC721Metadata.MetadataToken.TokenURI | test/tokens/ERC721/ERC721Metadata.ts:21-51 | `tokenURI` answers exactly for existing tokens, with the base URI followed by the decimal identifier; otherwise it reverts "Token does not exist!" |
| ERC165.KnownInterfaceIds | test/BooksCollection.ts:18-24 | the exclusive-or of each interface's selectors is its published identifier (0x01ffc9a7, 0x80ac58cd, 0x5b5e139f, 0x780e9d63) |
| ERC165.InterfaceIds | test/tokens/ERC165.ts:16-22 | every interface's identifier is its published one |
| ERC165.KnownIdsDistinct | test/tokens/ERC165.ts:24-30 | distinct interfaces have distinct identifiers, none equal to the reserved 0xffffffff |
| ERC165.Lookup | test/tokens/ERC165.ts:32-38 | the lookup finds the interface an identifier belongs to, and finds nothing exactly when no interface has that identifier |
| ERC165.SupportsInterface | test/tokens/ERC165.ts:16-38 | `supportsInterface(id)` is true iff a published interface has identifier `id`, never for 0xffffffff, and never reverts |
| BooksCollection.Collection.constructor | test/BooksCollection.ts:6-16 | a new catalogue is valid, with no tokens and no records |
| BooksCollection.Collection.SupportsInterface | test/BooksCollection.ts:18-24 | the catalogue supports exactly the ERC-165, ERC-721, metadata and enumeration identifiers |
| BooksCollection.Collection.GetBook | test/BooksCollection.ts:27-61 | `getBook` answers the stored record exactly for existing tokens; otherwise it reverts "Token does not exist!" |
| BooksCollection.Collection.MintBook | test/BooksCollection.ts:27-51 | the enumerable safe mint that also stores the record: on success the whole registry and index effect of `Minted` (owner, balances, approvals, burned set, event, global list, every owner's list) plus the new record; a revert stores nothing and changes nothing |
| BooksCollection.Collection.BurnBook | test/BooksCollection.ts:65-100 | the enumerable burn that also deletes the record: on success the whole registry and index effect of `Burned` (owner, balance, approval, burned set, event, swap-and-pop of the global list and the owner's list, other lists unchanged) minus the record; a revert deletes nothing; records always exist exactly for existing tokens |
| ERC20.SumRemove | test/tokens/ERC20/ERC20.ts:43-56 | any recorded balance can be split off the sum of balances |
| ERC20.SumUpdate | test/tokens/ERC20/ERC20.ts:43-56 | overwriting one balance changes the sum by the difference |
| ERC20.BalanceBelowSum | test/tokens/ERC20/ERC20.ts:43-56 | no single balance exceeds the sum |
| ERC20.Debit | test/tokens/ERC20/ERC20.ts:32-41 | taking a value from an account lowers exactly that account's balance; debiting the zero address changes no balance and never records an entry for it |
| ERC20.Credit | test/tokens/ERC20/ERC20.ts:22-30 | giving a value to an account raises exactly that account's balance; crediting the zero address changes no balance and never records an entry for it |
| ERC20.SumOfDebit | test/tokens/ERC20/ERC20.ts:32-41 | a debit lowers the sum by the value unless it is taken from the supply |
| ERC20.SumOfCredit | test/tokens/ERC20/ERC20.ts:22-30 | a credit raises the sum by the value unless it is given to the supply |
| ERC20.Token.constructor | test/tokens/ERC20/ERC20.ts:14-20 | name and symbol are the deployment arguments, with no balances, allowances or supply |
| ERC20.Token.BalanceOf | test/tokens/ERC20/ERC20.ts:22-41 | `balanceOf(a)` is zero for an account never credited; in a valid ledger it is zero for the zero address and never exceeds the total supply |
| ERC20.Token.Allowance | test/tokens/ERC20/ERC20.ts:66-74 | `allowance(owner, spender)` is zero for a pair never approved; otherwise it is the value `approve` last set (see `ERC20.Token.Approve`) |
| ERC20.Token.Update | test/tokens/ERC20/ERC20.ts:22-56 | the shared balance routine: moving a value adjusts the two balances, mints and burns adjust the supply, and the supply stays the sum of the balances and the zero address keeps no entry |
| ERC20.Token.Mint | test/tokens/ERC20/ERC20.ts:22-30 | reverts for the zero address or a supply overflow with storage unchanged; otherwise the receiver's balance and the supply rise by the value and nothing else changes |
| ERC20.Token.Burn | test/tokens/ERC20/ERC20.ts:32-41 | reverts `ERC20InsufficientBalance` when the caller holds too little; otherwise the caller's balance and the supply drop by the value |
| ERC20.Token.Transfer | test/tokens/ERC20/ERC20.ts:43-64 | reverts `ERC20InsufficientBalance(caller, balance, value)` when the caller holds too little; otherwise the value moves and the supply is conserved |
| ERC20.Token.Approve | test/tokens/ERC20/ERC20.ts:66-74 | afterwards `allowance(caller, spender)` is the value (set, not added to), every other pair's allowance is unchanged, balances and supply are unchanged and `Approval` is emitted |
| ERC20.Token.TransferFrom | test/tokens/ERC20/ERC20.ts:76-126 | reverts `ERC20InsufficientAllowance(spender, allowance, value)` when the allowance is short; otherwise the value moves and the allowance drops by it, except that an allowance of 2^256-1 stays as it is |
| Ownable.Ownable.constructor | test/access/Ownable.ts:15-18 | the deployment argument becomes the owner, `OwnershipTransferred(0, owner)` is emitted, and the owner/log invariant holds |
| Ownable.Ownable.CheckOwner | test/access/Ownable.ts:32-40 | the guard passes exactly for the account that the latest `OwnershipTransferred` event named as new owner, and otherwise reverts `OwnableUnauthorizedAccount(caller)` |
| Ownable.Ownable.TransferOwnership | test/access/Ownable.ts:20-40 | by a non-owner it reverts `OwnableUnauthorizedAccount`; to the zero address it reverts `OwnableInvalidOwner(0)`; otherwise the new owner is set and `OwnershipTransferred(old, new)` is emitted; the owner/log invariant is kept |
| Ownable.Ownable.RenounceOwnership | test/access/Ownable.ts:42-58 | by a non-owner it reverts with the owner unchanged; by the owner it sets the owner to the zero address and emits `OwnershipTransferred(owner, 0)`; the owner/log invariant is kept |
| Ownable.Deploy | test/access/Ownable.ts:6-13 | deployment succeeds exactly for a non-zero initial owner, which becomes the owner of a contract whose owner/log invariant holds |
| RoleAccessControl.LogStep | test/access/RoleAccessControl.ts:17-75 | appending one event changes what the log says about holding only for the pair a grant or revocation names, and about admins only for the role an admin change names |
| RoleAccessControl.RoleAccessControl.constructor | test/access/RoleAccessControl.ts:6-15 | the deployer alone holds the default admin role, `RoleGranted(0, deployer, deployer)` is emitted, and the membership/log invariant holds |
| RoleAccessControl.RoleAccessControl.HasRole | test/access/RoleAccessControl.ts:17-26 | `hasRole(role, account)` holds exactly when the latest `RoleGranted`/`RoleRevoked` event for the pair is a grant |
| RoleAccessControl.RoleAccessControl.GetRoleAdmin | test/access/RoleAccessControl.ts:46-60 | `getRoleAdmin(role)` is the admin role the latest `RoleAdminChanged` event for the role installed, and the default admin role when there was none |
| RoleAccessControl.RoleAccessControl.CheckRole | test/access/RoleAccessControl.ts:94-105 | the check passes exactly when the latest grant or revocation of the pair is a grant, and otherwise reverts `AccessControlUnauthorizedAccount(account, role)` |
| RoleAccessControl.RoleAccessControl.GrantRole | test/access/RoleAccessControl.ts:17-26 | only a member of the role's admin role may grant; on success the account holds the role and `RoleGranted` is emitted if it did not already; the membership/log invariant is kept |
| RoleAccessControl.RoleAccessControl.Revoke | test/access/RoleAccessControl.ts:62-75 | the account no longer holds the role; `RoleRevoked` is emitted only if it did |
| RoleAccessControl.RoleAccessControl.RevokeRole | test/access/RoleAccessControl.ts:62-75 | only a member of the role's admin role may revoke; on success the account no longer holds the role |
| RoleAccessControl.RoleAccessControl.RenounceRole | test/access/RoleAccessControl.ts:77-92 | an account may drop only its own membership; a confirmation other than the caller reverts `AccessControlBadConfirmation` |
| RoleAccessControl.RoleAccessControl.SetRoleAdmin | test/access/RoleAccessControl.ts:46-60 | afterwards `getRoleAdmin(role)` is the given role and every other role's admin is unchanged; memberships are unchanged and `RoleAdminChanged(role, previous, new)` is emitted |
| ERC721Scenarios.MintThenOwnerOf | test/tokens/ERC721/ERC721.ts:25-39 | after a mint, `ownerOf` is the receiver and its balance is 1; minting the same id again reverts "Token already minted" |
| ERC721Scenarios.SafeMintThenOwnerOf | test/tokens/ERC721/ERC721.ts:41-55 | after a safe mint to an account, `ownerOf` is the receiver with balance 1; a second safe mint reverts "Token already minted" |
| ERC721Scenarios.MintToZero | test/tokens/ERC721/ERC721.ts:57-75 | mint and safe mint to the zero address revert "Mint to the zero address" |
| ERC721Scenarios.SafeMintToNonReceiver | test/tokens/ERC721/ERC721.ts:77-91 | a safe mint to a rejecting contract reverts "Non erc721 receiver!" and the token does not exist |
| ERC721Scenarios.SafeMintToReceiver | test/tokens/ERC721/ERC721.ts:93-112 | a safe mint to an accepting contract emits `Transfer(0, receiver, 2)`; the receiver owns the token with balance 1 |
| ERC721Scenarios.BurnByStranger | test/tokens/ERC721/ERC721.ts:114-126 | a burn by a non-owner reverts "Not an owner or approved!" |
| ERC721Scenarios.BurnByOwner | test/tokens/ERC721/ERC721.ts:128-142 | after the owner burns, `ownerOf` reverts "Token does not exist!" and the owner's balance is 0 |
| ERC721Scenarios.TransferMissingToken | test/tokens/ERC721/ERC721.ts:146-156 | transfer and safe transfer of a missing token revert "Token does not exist!" (also lines 191-206) |
| ERC721Scenarios.TransferByStranger | test/tokens/ERC721/ERC721.ts:158-170 | transfer and safe transfer by a non-owner revert "Not an owner or approved!" (also lines 208-225) |
| ERC721Scenarios.TransferByOwner | test/tokens/ERC721/ERC721.ts:172-187 | after the owner's transfer, `ownerOf` is the receiver with balance 1 |
| ERC721Scenarios.SafeTransferByOwner | test/tokens/ERC721/ERC721.ts:227-247 | after the owner's safe transfer to an account, `ownerOf` is the receiver with balance 1 |
| ERC721Scenarios.SafeTransferToNonReceiver | test/tokens/ERC721/ERC721.ts:249-274 | a safe transfer to a rejecting contract reverts "Non erc721 receiver!" and the owner keeps the token |
| ERC721Scenarios.SafeTransferToReceiver | test/tokens/ERC721/ERC721.ts:276-308 | a safe transfer to an accepting contract emits `Transfer(holder, receiver, 2)`; the receiver owns the token with balance 1 |
| ERC721Scenarios.ApproveMissingToken | test/tokens/ERC721/ERC721.ts:312-320 | approving a missing token reverts "Token does not exist!" |
| ERC721Scenarios.ApproveOwnerItself | test/tokens/ERC721/ERC721.ts:322-331 | approving the owner reverts "Cannot approve to self" |
| ERC721Scenarios.ApproveAnother | test/tokens/ERC721/ERC721.ts:333-344 | after the owner approves a spender, `getApproved` is that spender |
| ERC721Scenarios.ApprovedSpenderBurns | test/tokens/ERC721/ERC721.ts:346-367 | an approved spender may burn; afterwards `ownerOf` and `getApproved` revert and the owner's balance is 0 |
| ERC721Scenarios.ApprovedSpenderWrongFrom | test/tokens/ERC721/ERC721.ts:370-384 | an approved spender naming a `from` that is not the owner reverts "Not an owner!" |
| ERC721Scenarios.ApprovedSpenderToZero | test/tokens/ERC721/ERC721.ts:386-401 | a transfer to the zero address reverts "To cannot be zero address!" |
| ERC721Scenarios.ApprovedSpenderToSender | test/tokens/ERC721/ERC721.ts:403-415 | a transfer to the sender itself reverts "Transfer to the same address!" |
| ERC721Scenarios.ApprovedSpenderTransfers | test/tokens/ERC721/ERC721.ts:417-432 | an approved spender's transfer makes the receiver the owner with balance 1 |
| ERC721Scenarios.OperatorIsSelf | test/tokens/ERC721/ERC721.ts:437-443 | naming oneself as operator reverts "You cannot approve yourself!" |
| ERC721Scenarios.OperatorSetAndRevoke | test/tokens/ERC721/ERC721.ts:445-455 | `isApprovedForAll` is true after setting and false after revoking |
| ERC721Scenarios.OperatorApproves | test/tokens/ERC721/ERC721.ts:457-471 | an operator may approve a spender, after which `getApproved` is that spender |
| ERC721Scenarios.OperatorBurns | test/tokens/ERC721/ERC721.ts:473-489 | an operator may burn; afterwards `ownerOf` reverts and the owner's balance is 0 |
| ERC721Scenarios.OperatorTransfers | test/tokens/ERC721/ERC721.ts:492-507 | an operator's transfer makes the receiver the owner with balance 1 |
| ERC721EnumerableScenarios.DeployWithBatch | test/tokens/ERC721/ERC721Enumerable.ts:15-31 | deploying and minting a batch of distinct identifiers to one account lists them, in order, globally and for that account |
| ERC721EnumerableScenarios.DeployWithTwoBatches | test/tokens/ERC721/ERC721Enumerable.ts:15-31 | two batches to two accounts give the global list of both batches in order and each account its own batch |
| ERC721EnumerableScenarios.SupplyOfTwoBatches | test/tokens/ERC721/ERC721Enumerable.ts:36-57 | after minting [1,2,3] and [4,5,6], `totalSupply` is 6 and `tokenByIndex(3)` is 4 |
| ERC721EnumerableScenarios.TokenByIndexOutOfBounds | test/tokens/ERC721/ERC721Enumerable.ts:59-74 | `tokenByIndex(4)` over three tokens reverts "Index out of bounds" |
| ERC721EnumerableScenarios.TokenOfOwnerByIndexPerOwner | test/tokens/ERC721/ERC721Enumerable.ts:102-130 | each owner's list is read by position: 3 at index 2 of the first owner, 5 at index 1 of the second; the model reads the first owner's list after the second batch, where the scenario reads it before, which the second batch leaves unchanged |
| ERC721EnumerableScenarios.TokenOfOwnerByIndexOutOfBounds | test/tokens/ERC721/ERC721Enumerable.ts:132-147 | reading an owner's list at its balance reverts "Index out of bounds" |
| ERC721EnumerableScenarios.BurnLastToken | test/tokens/ERC721/ERC721Enumerable.ts:149-174 | burning the last token of [1,2,3] lowers the supply from 3 to 2 and leaves 2 at index 1, globally and for the owner |
| ERC721EnumerableScenarios.BurnMiddleToken | test/tokens/ERC721/ERC721Enumerable.ts:176-196 | burning 2 out of [1,2,3,4] lowers the supply to 3 and moves 4 to index 1 |
| ERC721EnumerableScenarios.SafeMintBatchToAccount | test/tokens/ERC721/ERC721Enumerable.ts:198-212 | a safe batch to an account mints all three tokens |
| ERC721EnumerableScenarios.SafeMintBatchToNonReceiver | test/tokens/ERC721/ERC721Enumerable.ts:214-230 | a safe batch to a rejecting contract reverts "Non erc721 receiver!" and mints nothing |
| ERC721EnumerableScenarios.SafeMintBatchToReceiver | test/tokens/ERC721/ERC721Enumerable.ts:232-252 | a safe batch to an accepting contract mints all three tokens |
| ERC721MetadataScenarios.MetadataOfMintedToken | test/tokens/ERC721/ERC721Metadata.ts:21-37 | name and symbol are the deployment arguments and token 2 has URI "https://test.com/2" |
| ERC721MetadataScenarios.URIOfMissingToken | test/tokens/ERC721/ERC721Metadata.ts:39-51 | the URI of an unminted token reverts "Token does not exist!" |
| ERC721MetadataScenarios.URIWithEmptyBase | test/tokens/ERC721/ERC721Metadata.ts:53-67 | under an empty base URI a minted token's URI is empty |
| ERC165Scenarios.SupportsOwnInterface | test/tokens/ERC165.ts:16-22 | the bare contract supports 0x01ffc9a7 |
| ERC165Scenarios.RejectsInvalidInterface | test/tokens/ERC165.ts:24-30 | it does not support 0xffffffff |
| ERC165Scenarios.RejectsUnknownInterface | test/tokens/ERC165.ts:32-38 | it does not support 0x12345678 |
| BooksCollectionScenarios.SupportsTokenInterfaces | test/BooksCollection.ts:18-24 | the catalogue supports the ERC-721, metadata and enumeration identifiers |
| BooksCollectionScenarios.MintAndGetBook | test/BooksCollection.ts:27-51 | after `mintBook`, `getBook` returns the same title, author, ISBN, year and two genres |
| BooksCollectionScenarios.GetMissingBook | test/BooksCollection.ts:53-61 | `getBook` of a missing token reverts "Token does not exist!" |
| BooksCollectionScenarios.BurnBookRemovesRecord | test/BooksCollection.ts:65-90 | after `burnBook`, both `ownerOf` and `getBook` revert "Token does not exist!" |
| BooksCollectionScenarios.BurnMissingBook | test/BooksCollection.ts:92-100 | `burnBook` of a missing token reverts "Token does not exist!" |
| ERC20Scenarios.Metadata | test/tokens/ERC20/ERC20.ts:14-20 | name "TestToken", symbol "TTK", decimals 8 |
| ERC20Scenarios.MintCredits | test/tokens/ERC20/ERC20.ts:22-30 | minting 100 units gives the holder and the supply 100 units |
| ERC20Scenarios.BurnHalf | test/tokens/ERC20/ERC20.ts:32-41 | burning half of 100 units leaves 50 with the owner and in the supply |
| ERC20Scenarios.TransferHalf | test/tokens/ERC20/ERC20.ts:43-56 | transferring half of 100 units leaves 50 on each side |
| ERC20Scenarios.TransferWithoutBalance | test/tokens/ERC20/ERC20.ts:58-64 | a transfer without balance reverts `ERC20InsufficientBalance(owner, 0, 50 units)` |
| ERC20Scenarios.ApproveSpender | test/tokens/ERC20/ERC20.ts:66-74 | after approving 30 units, the allowance is 30 units |
| ERC20Scenarios.SpendWholeAllowance | test/tokens/ERC20/ERC20.ts:76-92 | spending a 50-unit allowance credits the receiver 50 units and leaves the allowance 0 |
| ERC20Scenarios.SpendWithoutAllowance | test/tokens/ERC20/ERC20.ts:94-106 | spending without allowance reverts `ERC20InsufficientAllowance(spender, 0, 50 units)` |
| ERC20Scenarios.UnlimitedAllowance | test/tokens/ERC20/ERC20.ts:108-126 | an allowance of 2^256-1 is still 2^256-1 after a spend |
| AccessScenarios.OwnerAfterDeployment | test/access/Ownable.ts:15-18 | the deployment argument is the owner |
| AccessScenarios.OwnerTransfersOwnership | test/access/Ownable.ts:20-30 | the owner's transfer sets the new owner and emits `OwnershipTransferred(owner, newOwner)` |
| AccessScenarios.StrangerTransfersOwnership | test/access/Ownable.ts:32-40 | a non-owner's transfer reverts `OwnableUnauthorizedAccount(other)` |
| AccessScenarios.OwnerRenouncesOwnership | test/access/Ownable.ts:42-50 | the owner's renouncement sets the owner to the zero address and emits `OwnershipTransferred(owner, 0)` |
| AccessScenarios.StrangerRenouncesOwnership | test/access/Ownable.ts:52-58 | a non-owner's renouncement reverts `OwnableUnauthorizedAccount(other)` |
| AccessScenarios.TransferOwnershipToZero | test/access/Ownable.ts:60-68 | a transfer to the zero address reverts `OwnableInvalidOwner(0)` |
| AccessScenarios.AssignRole | test/access/RoleAccessControl.ts:17-26 | after the deployer grants a role, the account has it |
| AccessScenarios.CheckRolePresence | test/access/RoleAccessControl.ts:28-44 | `checkRole(role)` by the holder and `checkRole(role, holder)` pass; both forms are the one check of the holder's membership, which does not depend on the caller |
| AccessScenarios.ChangeRoleAdmin | test/access/RoleAccessControl.ts:46-60 | after `setRoleAdmin`, `getRoleAdmin` is the new admin role |
| AccessScenarios.RevokeGrantedRole | test/access/RoleAccessControl.ts:62-75 | a granted role is held, and after revocation it is not |
| AccessScenarios.RenounceOwnRole | test/access/RoleAccessControl.ts:77-92 | a granted role is held, and after the holder renounces it, it is not |
| AccessScenarios.CheckRoleWithoutIt | test/access/RoleAccessControl.ts:94-105 | `checkRole(role)` by an account without the role reverts `AccessControlUnauthorizedAccount` |

## Left out

- The Solidity sources of the contracts are not part of this model. The behaviour is taken from the scenarios in `test/`; where they are silent, from OpenZeppelin 5 and the EIPs. This covers:
  - the order of the mint checks;
  - in `transferFrom`, the relative order of the unauthorised-caller, wrong-`from` and zero-`to` checks, since each scenario fails only one of them (the model checks the caller, then `from`, then `to`);
  - in `approve`, the relative order of the approval-to-owner and unauthorised-caller checks (the model checks the spender first);
  - approval by an operator;
  - the `Ownable` zero-owner deployment check;
  - the role admin rules;
  - the per-owner enumeration effect of transfers.
- `test/tokens/ERC20/ERC20Permit.ts`: typed-data hashing, signature recovery and deadlines are cryptography and block state.
- `test/proxy/Proxy.ts`: delegate calls, storage-slot layout and value transfer are EVM semantics.
- `test/BookPaywall.ts`: deploying contracts at fresh addresses and reading receipt logs is deployment plumbing.
- The receiver callback `onERC721Received` is not executed. Its answer is an input (`Recipient`), so reentrancy and the call stack are not modelled. Only the roll-back on rejection is.
- Gas, `msg.value` and the test harness (fixtures, signers, `async`) are not modelled.
- The batch mint helper issues its mints concurrently (`Promise.all`). The model mints them sequentially in array order.
- ERC721.Token.BalanceOf: balances are unbounded naturals. A 2^256 overflow of an ERC-721 balance would need 2^256 tokens and is not modelled.
- ERC721Enumerable.EnumerableToken.TokenByIndex: indexes are naturals. A uint256 argument beyond the list is out of bounds either way.
- ERC721.Token.constructor: whether a burned identifier may be minted again is not fixed by any scenario. It is the deployment parameter `remintAfterBurn`, and every scenario holds for both settings.
- ERC721Enumerable.EnumerableToken.MintBatch: for a batch that mixes fresh and already-minted identifiers, the contract states only that the invariant holds and that the burned set is unchanged. It does not state which mints committed.
- RoleAccessControl.RoleAccessControl.constructor: role identifiers are `keccak256` hashes of role names. The scenarios take them as parameters.
- BooksCollection.Collection.MintBook: the scenarios call `mintBook` from the deployer only, so no access guard is modelled.
- BooksCollection.Collection.constructor: the catalogue's name, symbol and base URI are not exercised by any scenario and are not modelled.
- Two ERC-721 revert reasons are asserted by no scenario, and their strings are chosen: "Zero address is not a valid owner" for the zero-address balance query, and "Not an owner or approved!" for an `approve` by a caller that is neither the owner nor an operator.
- The ERC-20 invalid sender, receiver, approver and spender reverts, which no scenario reaches, are OpenZeppelin 5's error constructors.
- Events are an appended log, not EVM logs with topics.
