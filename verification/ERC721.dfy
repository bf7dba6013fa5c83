/** The ERC-721 registry (`MockERC721`): who owns which token, how many
    tokens each account holds, and who may move a token on the owner's
    behalf. Every mutating call either commits all of its effects or
    reverts with one of the errors below and changes nothing. */
module ERC721 {
  import opened Types

  /** The revert reasons of the registry. */
  datatype Error =
    | TokenDoesNotExist
    | TokenAlreadyMinted
    | MintToZeroAddress
    | NotOwnerOrApproved
    | NotOwner
    | TransferToZeroAddress
    | TransferToSameAddress
    | ApproveToOwner
    | ApproveSelfAsOperator
    | NonReceiver
    | ZeroAddressBalance

  /** The revert string the contract reports for each error. */
  function Reason(e: Error): string {
    match e
    case TokenDoesNotExist => "Token does not exist!"
    case TokenAlreadyMinted => "Token already minted"
    case MintToZeroAddress => "Mint to the zero address"
    case NotOwnerOrApproved => "Not an owner or approved!"
    case NotOwner => "Not an owner!"
    case TransferToZeroAddress => "To cannot be zero address!"
    case TransferToSameAddress => "Transfer to the same address!"
    case ApproveToOwner => "Cannot approve to self"
    case ApproveSelfAsOperator => "You cannot approve yourself!"
    case NonReceiver => "Non erc721 receiver!"
    case ZeroAddressBalance => "Zero address is not a valid owner"
  }

  /** The events the registry emits. */
  datatype Event =
    | Transfer(from: Address, to: Address, tokenId: TokenId)
    | Approval(owner: Address, approved: Address, tokenId: TokenId)
    | ApprovalForAll(owner: Address, operator: Address, enabled: bool)

  /** What sits at the destination of a safe mint or safe transfer: an
      account without code, or a contract whose `onERC721Received` answer
      (the right selector, or anything else including a revert) is given. */
  datatype Recipient = ExternallyOwned | Receiver(accepts: bool)

  /** The receiver probe: accounts without code always accept; a contract
      accepts only when it answers with the acceptance selector. */
  predicate AcceptsTokens(r: Recipient) {
    r.ExternallyOwned? || r.accepts
  }

  /** The whole storage of a registry: ownership table, balances,
      single-token approvals, operator approvals, burned identifiers and
      event log. */
  type Snapshot = (map<TokenId, Address>, map<Address, nat>, map<TokenId, Address>,
                   map<(Address, Address), bool>, set<TokenId>, seq<Event>)

  /** The tokens `a` owns under the ownership table `owners`. */
  ghost function TokensOf(owners: map<TokenId, Address>, a: Address): set<TokenId> {
    set id | id in owners && owners[id] == a
  }

  lemma TokensOfAssign(owners: map<TokenId, Address>, id: TokenId, to: Address, a: Address)
    ensures TokensOf(owners[id := to], a)
         == if a == to then TokensOf(owners, a) + {id} else TokensOf(owners, a) - {id}
  {
  }

  lemma TokensOfRemove(owners: map<TokenId, Address>, id: TokenId, a: Address)
    ensures TokensOf(owners - {id}, a) == TokensOf(owners, a) - {id}
  {
  }

  /** The balance `balances` records for `a` (zero when absent). */
  function BalanceIn(balances: map<Address, nat>, a: Address): nat {
    if a in balances then balances[a] else 0
  }

  /** Every recorded balance counts exactly the tokens its account owns. */
  ghost predicate BalancesCount(owners: map<TokenId, Address>, balances: map<Address, nat>) {
    forall a :: BalanceIn(balances, a) == |TokensOf(owners, a)|
  }

  /** The effect routine keeps balances counting owned tokens: moving
      `id` from `from` (its owner, or the zero address when it does not
      exist) to `to` (the zero address for a burn) while decrementing the
      sender's and incrementing the receiver's balance. */
  lemma {:induction false} MoveKeepsBalancesCounting(
    owners: map<TokenId, Address>, balances: map<Address, nat>, id: TokenId, to: Address,
    owners': map<TokenId, Address>, balances': map<Address, nat>)
    requires BalancesCount(owners, balances)
    requires forall t :: t in owners ==> owners[t] != ZeroAddress
    requires id in owners || to != ZeroAddress
    requires owners' == if to == ZeroAddress then owners - {id} else owners[id := to]
    requires forall a :: BalanceIn(balances', a)
               == if a == ZeroAddress then BalanceIn(balances, a)
                  else BalanceIn(balances, a) - (if id in owners && a == owners[id] then 1 else 0)
                                              + (if a == to then 1 else 0)
    ensures BalancesCount(owners', balances')
  {
    var from := if id in owners then owners[id] else ZeroAddress;
    forall a
      ensures BalanceIn(balances', a) == |TokensOf(owners', a)|
    {
      var had := TokensOf(owners, a);
      assert BalanceIn(balances, a) == |had|;
      if to == ZeroAddress {
        TokensOfRemove(owners, id, a);
        if a == from {
          assert id in had;
        } else {
          assert TokensOf(owners', a) == had;
        }
      } else {
        TokensOfAssign(owners, id, to, a);
        if a == to && a == from {
          assert had + {id} == had;
        } else if a == to {
          assert id !in had;
        } else if a == from && from != ZeroAddress {
          assert id in had;
        } else {
          assert TokensOf(owners', a) == had;
        }
      }
    }
  }

  class Token {
    /** Whether an identifier may be minted again after it was burned. */
    const remintAfterBurn: bool
    var owners: map<TokenId, Address>
    var balances: map<Address, nat>
    var tokenApprovals: map<TokenId, Address>
    var operatorApprovals: map<(Address, Address), bool>
    /** Identifiers burned so far; consulted by mint only when re-minting is off. */
    var burned: set<TokenId>
    var log: seq<Event>

    /** The registry invariant: owners are never the zero address, every
        balance counts exactly the tokens its account owns, single-token
        approvals exist only for existing tokens, and (when re-minting is
        off) no burned identifier is owned again. */
    ghost predicate Valid()
      reads this
    {
      && (forall id :: id in owners ==> owners[id] != ZeroAddress)
      && BalancesCount(owners, balances)
      && tokenApprovals.Keys <= owners.Keys
      && (!remintAfterBurn ==> burned !! owners.Keys)
    }

    constructor (remintAfterBurn: bool)
      ensures Valid()
      ensures this.remintAfterBurn == remintAfterBurn
      ensures owners == map[] && balances == map[] && tokenApprovals == map[]
      ensures operatorApprovals == map[] && burned == {} && log == []
    {
      this.remintAfterBurn := remintAfterBurn;
      owners, balances, tokenApprovals := map[], map[], map[];
      operatorApprovals, burned, log := map[], {}, [];
    }

    /** Everything the registry stores; a reverted call leaves it as it was. */
    function Storage(): Snapshot
      reads this
    {
      (owners, balances, tokenApprovals, operatorApprovals, burned, log)
    }

    /** Rolls the registry back to a storage saved earlier in the same
        call, as the EVM does when a call reverts after its effects. */
    method Restore(saved: Snapshot)
      modifies this
      ensures Storage() == saved
    {
      owners, balances, tokenApprovals := saved.0, saved.1, saved.2;
      operatorApprovals, burned, log := saved.3, saved.4, saved.5;
    }

    /** The stored balance of `a` (zero for an account never seen). */
    function Balance(a: Address): nat
      reads this
    {
      BalanceIn(balances, a)
    }

    /** The owner of `id`, or the zero address when it does not exist. */
    function OwnerOrZero(id: TokenId): Address
      reads this
    {
      if id in owners then owners[id] else ZeroAddress
    }

    /** The single-token approval of `id` (the zero address when none). */
    function Approved(id: TokenId): Address
      reads this
    {
      if id in tokenApprovals then tokenApprovals[id] else ZeroAddress
    }

    /** `isApprovedForAll(owner, operator)`: false for a pair never set. */
    function IsApprovedForAll(owner: Address, operator: Address): (b: bool)
      reads this
      ensures (owner, operator) !in operatorApprovals ==> !b
    {
      (owner, operator) in operatorApprovals && operatorApprovals[(owner, operator)]
    }

    /** The caller may move or burn `id`: it is a real account (the zero
        address also marks "no approval", so it never qualifies) and it is
        the owner, the approved spender of `id`, or an operator of the
        owner. */
    predicate IsAuthorized(caller: Address, id: TokenId)
      reads this
      requires id in owners
    {
      && caller != ZeroAddress
      && (caller == owners[id] || caller == Approved(id) || IsApprovedForAll(owners[id], caller))
    }

    /** The identifier cannot be minted now. */
    predicate Unavailable(id: TokenId)
      reads this
    {
      id in owners || (!remintAfterBurn && id in burned)
    }

    // ---- views --------------------------------------------------------

    /** `ownerOf(id)`. */
    function OwnerOf(id: TokenId): (r: Result<Address, Error>)
      reads this
      requires Valid()
      ensures r.Ok? <==> id in owners
      ensures r.Ok? ==> r.value != ZeroAddress && id in TokensOf(owners, r.value)
      ensures r.Err? ==> r.error == TokenDoesNotExist
    {
      if id in owners then Ok(owners[id]) else Err(TokenDoesNotExist)
    }

    /** `balanceOf(a)`. */
    function BalanceOf(a: Address): (r: Result<nat, Error>)
      reads this
      requires Valid()
      ensures r.Err? <==> a == ZeroAddress
      ensures r.Ok? ==> r.value == |TokensOf(owners, a)|
      ensures r.Err? ==> r.error == ZeroAddressBalance
    {
      if a == ZeroAddress then Err(ZeroAddressBalance) else Ok(Balance(a))
    }

    /** `getApproved(id)`. */
    function GetApproved(id: TokenId): (r: Result<Address, Error>)
      reads this
      requires Valid()
      ensures r.Ok? <==> id in owners
      ensures r.Err? ==> r.error == TokenDoesNotExist
      ensures r.Ok? ==> forall c :: c != ZeroAddress ==>
                          (IsAuthorized(c, id) <==> c == owners[id] || c == r.value || IsApprovedForAll(owners[id], c))
    {
      if id in owners then Ok(Approved(id)) else Err(TokenDoesNotExist)
    }

    // ---- guards -------------------------------------------------------

    function MintCheck(to: Address, id: TokenId): Outcome<Error>
      reads this
    {
      if to == ZeroAddress then Revert(MintToZeroAddress)
      else if Unavailable(id) then Revert(TokenAlreadyMinted)
      else Done
    }

    function TransferCheck(caller: Address, from: Address, to: Address, id: TokenId): Outcome<Error>
      reads this
    {
      if id !in owners then Revert(TokenDoesNotExist)
      else if !IsAuthorized(caller, id) then Revert(NotOwnerOrApproved)
      else if from != owners[id] then Revert(NotOwner)
      else if to == ZeroAddress then Revert(TransferToZeroAddress)
      else if to == from then Revert(TransferToSameAddress)
      else Done
    }

    function BurnCheck(caller: Address, id: TokenId): Outcome<Error>
      reads this
    {
      if id !in owners then Revert(TokenDoesNotExist)
      else if !IsAuthorized(caller, id) then Revert(NotOwnerOrApproved)
      else Done
    }

    function ApproveCheck(caller: Address, spender: Address, id: TokenId): Outcome<Error>
      reads this
    {
      if id !in owners then Revert(TokenDoesNotExist)
      else if spender == owners[id] then Revert(ApproveToOwner)
      else if caller != owners[id] && !IsApprovedForAll(owners[id], caller) then Revert(NotOwnerOrApproved)
      else Done
    }

    // ---- the effect routine shared by mint, transfer and burn ---------

    /** Moves `id` from its current holder (the zero address for a mint)
        to `to` (the zero address for a burn): clears its single-token
        approval, adjusts both balances, rewrites the ownership table and
        emits `Transfer`. */
    method Update(to: Address, id: TokenId)
      requires Valid()
      requires id in owners || (to != ZeroAddress && !Unavailable(id))
      modifies this
      ensures Valid()
      ensures owners == if to == ZeroAddress then old(owners) - {id} else old(owners)[id := to]
      ensures tokenApprovals == old(tokenApprovals) - {id}
      ensures operatorApprovals == old(operatorApprovals)
      ensures burned == if to == ZeroAddress then old(burned) + {id} else old(burned)
      ensures log == old(log) + [Transfer(old(OwnerOrZero(id)), to, id)]
      ensures forall a :: a != ZeroAddress ==>
                Balance(a) == old(Balance(a)) - (if a == old(OwnerOrZero(id)) then 1 else 0)
                                              + (if a == to then 1 else 0)
    {
      var from := OwnerOrZero(id);
      var balances' := balances;
      if from != ZeroAddress {
        assert id in TokensOf(owners, from);
        balances' := balances'[from := BalanceIn(balances', from) - 1];
      }
      if to != ZeroAddress {
        balances' := balances'[to := BalanceIn(balances', to) + 1];
      }
      var owners' := if to == ZeroAddress then owners - {id} else owners[id := to];
      MoveKeepsBalancesCounting(owners, balances, id, to, owners', balances');
      owners, balances := owners', balances';
      if to == ZeroAddress {
        burned := burned + {id};
      }
      tokenApprovals := tokenApprovals - {id};
      log := log + [Transfer(from, to, id)];
    }

    // ---- mutating entry points ----------------------------------------

    /** `mint(to, id)`. */
    method Mint(to: Address, id: TokenId) returns (r: Outcome<Error>)
      requires Valid()
      modifies this
      ensures Valid()
      ensures r == old(MintCheck(to, id))
      ensures r.Revert? ==> Storage() == old(Storage())
      ensures r.Done? ==>
        && owners == old(owners)[id := to]
        && Balance(to) == old(Balance(to)) + 1
        && (forall a :: a != to ==> Balance(a) == old(Balance(a)))
        && tokenApprovals == old(tokenApprovals)
        && operatorApprovals == old(operatorApprovals)
        && burned == old(burned)
        && log == old(log) + [Transfer(ZeroAddress, to, id)]
    {
      r := MintCheck(to, id);
      if r.Done? {
        Update(to, id);
      }
    }

    /** `safeMint(to, id, data)`: a mint followed by the receiver probe;
        a rejection rolls the whole mint back. */
    method SafeMint(to: Address, id: TokenId, recipient: Recipient) returns (r: Outcome<Error>)
      requires Valid()
      modifies this
      ensures Valid()
      ensures r == if old(MintCheck(to, id)).Revert? then old(MintCheck(to, id))
                   else if !AcceptsTokens(recipient) then Revert(NonReceiver)
                   else Done
      ensures r.Revert? ==> Storage() == old(Storage())
      ensures r.Done? ==>
        && owners == old(owners)[id := to]
        && Balance(to) == old(Balance(to)) + 1
        && (forall a :: a != to ==> Balance(a) == old(Balance(a)))
        && tokenApprovals == old(tokenApprovals)
        && operatorApprovals == old(operatorApprovals)
        && burned == old(burned)
        && log == old(log) + [Transfer(ZeroAddress, to, id)]
    {
      var saved := Storage();
      r := Mint(to, id);
      if r.Done? && !AcceptsTokens(recipient) {
        Restore(saved);
        r := Revert(NonReceiver);
      }
    }

    /** `transferFrom(from, to, id)` called by `caller`. */
    method TransferFrom(caller: Address, from: Address, to: Address, id: TokenId) returns (r: Outcome<Error>)
      requires Valid()
      modifies this
      ensures Valid()
      ensures r == old(TransferCheck(caller, from, to, id))
      ensures r.Revert? ==> Storage() == old(Storage())
      ensures r.Done? ==>
        && owners == old(owners)[id := to]
        && Balance(from) == old(Balance(from)) - 1
        && Balance(to) == old(Balance(to)) + 1
        && (forall a :: a != from && a != to ==> Balance(a) == old(Balance(a)))
        && tokenApprovals == old(tokenApprovals) - {id}
        && operatorApprovals == old(operatorApprovals)
        && burned == old(burned)
        && log == old(log) + [Transfer(from, to, id)]
    {
      r := TransferCheck(caller, from, to, id);
      if r.Done? {
        Update(to, id);
      }
    }

    /** `safeTransferFrom(from, to, id, data)` called by `caller`: a
        transfer followed by the receiver probe; a rejection rolls the
        whole transfer back. */
    method SafeTransferFrom(caller: Address, from: Address, to: Address, id: TokenId, recipient: Recipient)
      returns (r: Outcome<Error>)
      requires Valid()
      modifies this
      ensures Valid()
      ensures r == if old(TransferCheck(caller, from, to, id)).Revert? then old(TransferCheck(caller, from, to, id))
                   else if !AcceptsTokens(recipient) then Revert(NonReceiver)
                   else Done
      ensures r.Revert? ==> Storage() == old(Storage())
      ensures r.Done? ==>
        && owners == old(owners)[id := to]
        && Balance(from) == old(Balance(from)) - 1
        && Balance(to) == old(Balance(to)) + 1
        && (forall a :: a != from && a != to ==> Balance(a) == old(Balance(a)))
        && tokenApprovals == old(tokenApprovals) - {id}
        && operatorApprovals == old(operatorApprovals)
        && burned == old(burned)
        && log == old(log) + [Transfer(from, to, id)]
    {
      var saved := Storage();
      r := TransferFrom(caller, from, to, id);
      if r.Done? && !AcceptsTokens(recipient) {
        Restore(saved);
        r := Revert(NonReceiver);
      }
    }

    /** `burn(id)` called by `caller`. */
    method Burn(caller: Address, id: TokenId) returns (r: Outcome<Error>)
      requires Valid()
      modifies this
      ensures Valid()
      ensures r == old(BurnCheck(caller, id))
      ensures r.Revert? ==> Storage() == old(Storage())
      ensures r.Done? ==>
        && owners == old(owners) - {id}
        && Balance(old(owners[id])) == old(Balance(owners[id])) - 1
        && (forall a :: a != old(owners[id]) ==> Balance(a) == old(Balance(a)))
        && tokenApprovals == old(tokenApprovals) - {id}
        && operatorApprovals == old(operatorApprovals)
        && burned == old(burned) + {id}
        && log == old(log) + [Transfer(old(owners[id]), ZeroAddress, id)]
    {
      r := BurnCheck(caller, id);
      if r.Done? {
        Update(ZeroAddress, id);
      }
    }

    /** `approve(spender, id)` called by `caller`. */
    method Approve(caller: Address, spender: Address, id: TokenId) returns (r: Outcome<Error>)
      requires Valid()
      modifies this
      ensures Valid()
      ensures r == old(ApproveCheck(caller, spender, id))
      ensures r.Revert? ==> Storage() == old(Storage())
      ensures r.Done? ==> GetApproved(id) == Ok(spender)
      ensures r.Done? ==> forall t :: t != id ==> GetApproved(t) == old(GetApproved(t))
      ensures r.Done? ==>
        && tokenApprovals == old(tokenApprovals)[id := spender]
        && owners == old(owners) && balances == old(balances)
        && operatorApprovals == old(operatorApprovals) && burned == old(burned)
        && log == old(log) + [Approval(old(owners[id]), spender, id)]
    {
      r := ApproveCheck(caller, spender, id);
      if r.Done? {
        tokenApprovals := tokenApprovals[id := spender];
        log := log + [Approval(owners[id], spender, id)];
      }
    }

    /** `setApprovalForAll(operator, approved)` called by `caller`. */
    method SetApprovalForAll(caller: Address, operator: Address, approved: bool) returns (r: Outcome<Error>)
      requires Valid()
      modifies this
      ensures Valid()
      ensures r == if operator == caller then Revert(ApproveSelfAsOperator) else Done
      ensures r.Revert? ==> Storage() == old(Storage())
      ensures r.Done? ==> IsApprovedForAll(caller, operator) == approved
      ensures r.Done? ==> forall o: Address, p: Address :: (o, p) != (caller, operator) ==>
                            IsApprovedForAll(o, p) == old(IsApprovedForAll(o, p))
      ensures r.Done? ==>
        && operatorApprovals == old(operatorApprovals)[(caller, operator) := approved]
        && owners == old(owners) && balances == old(balances)
        && tokenApprovals == old(tokenApprovals) && burned == old(burned)
        && log == old(log) + [ApprovalForAll(caller, operator, approved)]
    {
      if operator == caller {
        r := Revert(ApproveSelfAsOperator);
      } else {
        operatorApprovals := operatorApprovals[(caller, operator) := approved];
        log := log + [ApprovalForAll(caller, operator, approved)];
        r := Done;
      }
    }
  }
}
