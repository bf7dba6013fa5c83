/** The ERC-721 enumeration extension (`MockERC721Enumerable`): on top of
    the registry it keeps a dense list of every existing token and, per
    owner, a dense list of that owner's tokens, each with a reverse
    position map. Mint appends; burn and transfer-out remove by
    swap-and-pop; transfer-in appends to the receiver's list. */
module ERC721Enumerable {
  import opened Types
  import opened ERC721
  import opened Enumeration

  /** The revert reason of the index reads. */
  datatype IndexError = IndexOutOfBounds

  function IndexReason(e: IndexError): string {
    "Index out of bounds"
  }

  /** The list `owned` keeps for `a` (empty when absent). */
  function ListOf(owned: map<Address, seq<TokenId>>, a: Address): seq<TokenId> {
    if a in owned then owned[a] else []
  }

  /** Every account's list enumerates exactly the tokens it owns, with
      positions recorded in the shared map `pos`. */
  ghost predicate OwnerListsIndexed(owned: map<Address, seq<TokenId>>, pos: map<TokenId, nat>,
                                    owners: map<TokenId, Address>)
  {
    forall a :: Indexes(ListOf(owned, a), pos, TokensOf(owners, a))
  }

  /** Appends `id` to the list of `to` and records its position. */
  function AddToOwner(owned: map<Address, seq<TokenId>>, pos: map<TokenId, nat>, to: Address, id: TokenId)
    : (map<Address, seq<TokenId>>, map<TokenId, nat>)
  {
    var list := ListOf(owned, to);
    (owned[to := list + [id]], pos[id := |list|])
  }

  /** Removes `id`, found at `pos[id]` in the list of `from`, by
      swap-and-pop. */
  function RemoveFromOwner(owned: map<Address, seq<TokenId>>, pos: map<TokenId, nat>, from: Address, id: TokenId)
    : (map<Address, seq<TokenId>>, map<TokenId, nat>)
    requires id in pos && pos[id] < |ListOf(owned, from)|
  {
    var list := ListOf(owned, from);
    (owned[from := SwapAndPop(list, pos[id])], SwapAndPopIndex(list, pos, id))
  }

  /** Giving a new token to `to` keeps every owner's list exact. */
  lemma {:induction false} AddToOwnerKeepsIndexed(owned: map<Address, seq<TokenId>>, pos: map<TokenId, nat>,
                                                  owners: map<TokenId, Address>, to: Address, id: TokenId)
    requires OwnerListsIndexed(owned, pos, owners)
    requires id !in owners
    ensures var (owned', pos') := AddToOwner(owned, pos, to, id);
            OwnerListsIndexed(owned', pos', owners[id := to])
  {
    var (owned', pos') := AddToOwner(owned, pos, to, id);
    forall a
      ensures Indexes(ListOf(owned', a), pos', TokensOf(owners[id := to], a))
    {
      TokensOfAssign(owners, id, to, a);
      var had := TokensOf(owners, a);
      assert Indexes(ListOf(owned, a), pos, had);
      if a == to {
        PushKeepsIndexes(ListOf(owned, a), pos, had, id);
      } else {
        assert had - {id} == had;
        IndexesFrame(ListOf(owned, a), pos, pos', had);
      }
    }
  }

  /** A new token, appended to the global list and to the list of `to`,
      keeps both enumerations exact and leaves every other list as it
      was. */
  lemma AddTokenKeepsIndexed(all: seq<TokenId>, allPos: map<TokenId, nat>, owned: map<Address, seq<TokenId>>,
                             pos: map<TokenId, nat>, owners: map<TokenId, Address>, to: Address, id: TokenId)
    requires Indexes(all, allPos, owners.Keys)
    requires OwnerListsIndexed(owned, pos, owners)
    requires id !in owners
    ensures Indexes(all + [id], allPos[id := |all|], owners[id := to].Keys)
    ensures var (owned', pos') := AddToOwner(owned, pos, to, id);
            && OwnerListsIndexed(owned', pos', owners[id := to])
            && ListOf(owned', to) == ListOf(owned, to) + [id]
            && (forall a :: a != to ==> ListOf(owned', a) == ListOf(owned, a))
  {
    PushKeepsIndexes(all, allPos, owners.Keys, id);
    assert owners[id := to].Keys == owners.Keys + {id};
    AddToOwnerKeepsIndexed(owned, pos, owners, to, id);
  }

  /** Taking an existing token away from its owner keeps every owner's
      list exact. */
  lemma {:induction false} RemoveFromOwnerKeepsIndexed(owned: map<Address, seq<TokenId>>, pos: map<TokenId, nat>,
                                                       owners: map<TokenId, Address>, id: TokenId)
    requires OwnerListsIndexed(owned, pos, owners)
    requires id in owners
    ensures id in pos && pos[id] < |ListOf(owned, owners[id])|
    ensures var (owned', pos') := RemoveFromOwner(owned, pos, owners[id], id);
            OwnerListsIndexed(owned', pos', owners - {id})
  {
    var from := owners[id];
    var list := ListOf(owned, from);
    assert Indexes(list, pos, TokensOf(owners, from));
    assert id in TokensOf(owners, from);
    var (owned', pos') := RemoveFromOwner(owned, pos, from, id);
    forall a
      ensures Indexes(ListOf(owned', a), pos', TokensOf(owners - {id}, a))
    {
      TokensOfRemove(owners, id, a);
      var had := TokensOf(owners, a);
      assert Indexes(ListOf(owned, a), pos, had);
      if a == from {
        SwapAndPopKeepsIndexes(list, pos, had, id);
      } else {
        assert id !in had;
        assert had - {id} == had;
        forall t | t in had
          ensures t in pos' && pos'[t] == pos[t]
        {
          assert list[|list| - 1] in TokensOf(owners, from);
        }
        IndexesFrame(ListOf(owned, a), pos, pos', had);
      }
    }
  }

  /** A transfer's effect on the per-owner lists: `id` leaves the list of
      its owner `from` by swap-and-pop and is appended to the list of `to`. */
  function MoveBetweenOwners(owned: map<Address, seq<TokenId>>, pos: map<TokenId, nat>,
                             from: Address, to: Address, id: TokenId)
    : (map<Address, seq<TokenId>>, map<TokenId, nat>)
    requires id in pos && pos[id] < |ListOf(owned, from)|
  {
    var (owned1, pos1) := RemoveFromOwner(owned, pos, from, id);
    AddToOwner(owned1, pos1, to, id)
  }

  /** Moving an existing token to a different account keeps every owner's
      list exact; the sender's list shrinks by swap-and-pop, the
      receiver's grows by one at the end, and no other list changes. */
  lemma {:induction false} MoveBetweenOwnersKeepsIndexed(owned: map<Address, seq<TokenId>>, pos: map<TokenId, nat>,
                                                         owners: map<TokenId, Address>, to: Address, id: TokenId)
    requires OwnerListsIndexed(owned, pos, owners)
    requires id in owners && owners[id] != to
    ensures id in pos && pos[id] < |ListOf(owned, owners[id])|
    ensures var (owned', pos') := MoveBetweenOwners(owned, pos, owners[id], to, id);
            && OwnerListsIndexed(owned', pos', owners[id := to])
            && ListOf(owned', owners[id]) == SwapAndPop(ListOf(owned, owners[id]), pos[id])
            && ListOf(owned', to) == ListOf(owned, to) + [id]
            && (forall a :: a != owners[id] && a != to ==> ListOf(owned', a) == ListOf(owned, a))
  {
    var from := owners[id];
    RemoveFromOwnerKeepsIndexed(owned, pos, owners, id);
    var (owned1, pos1) := RemoveFromOwner(owned, pos, from, id);
    AddToOwnerKeepsIndexed(owned1, pos1, owners - {id}, to, id);
    assert (owners - {id})[id := to] == owners[id := to];
  }

  class EnumerableToken {
    /** The underlying registry. */
    const token: Token
    var allTokens: seq<TokenId>
    var allTokensIndex: map<TokenId, nat>
    var ownedTokens: map<Address, seq<TokenId>>
    var ownedTokensIndex: map<TokenId, nat>

    /** The enumeration invariant: the registry is valid, the global list
        enumerates exactly the existing tokens, and each owner's list
        enumerates exactly that owner's tokens. */
    ghost predicate Valid()
      reads this, token
    {
      && token.Valid()
      && Indexes(allTokens, allTokensIndex, token.owners.Keys)
      && OwnerListsIndexed(ownedTokens, ownedTokensIndex, token.owners)
    }

    constructor (remintAfterBurn: bool)
      ensures Valid() && fresh(token)
      ensures token.remintAfterBurn == remintAfterBurn && token.owners == map[] && token.burned == {} && token.log == []
      ensures allTokens == [] && ownedTokens == map[]
    {
      token := new Token(remintAfterBurn);
      allTokens, allTokensIndex := [], map[];
      ownedTokens, ownedTokensIndex := map[], map[];
    }

    /** The enumeration storage; a reverted call leaves it as it was. */
    function Index(): (seq<TokenId>, map<TokenId, nat>, map<Address, seq<TokenId>>, map<TokenId, nat>)
      reads this
    {
      (allTokens, allTokensIndex, ownedTokens, ownedTokensIndex)
    }

    /** The list of tokens `a` owns, in enumeration order. */
    function OwnedList(a: Address): seq<TokenId>
      reads this
    {
      ListOf(ownedTokens, a)
    }

    // ---- views --------------------------------------------------------

    /** `totalSupply()`: the length of the global list, which is the
        number of existing tokens. */
    function TotalSupply(): (n: nat)
      reads this, token
      requires Valid()
      ensures n == |token.owners.Keys|
    {
      IndexesSize(allTokens, allTokensIndex, token.owners.Keys);
      |allTokens|
    }

    /** `tokenByIndex(i)`: a bounds-checked read of the global list. */
    function TokenByIndex(i: nat): (r: Result<TokenId, IndexError>)
      reads this, token
      requires Valid()
      ensures r.Ok? <==> i < |token.owners.Keys|
      ensures r.Ok? ==> r.value in token.owners
      ensures r.Ok? ==> i < |allTokens| && r.value == allTokens[i]
      ensures r.Err? ==> r.error == IndexOutOfBounds
    {
      if i < TotalSupply() then Ok(allTokens[i]) else Err(IndexOutOfBounds)
    }

    /** `tokenOfOwnerByIndex(owner, i)`: a bounds-checked read of the
        owner's list, bounded by the owner's balance. */
    function TokenOfOwnerByIndex(owner: Address, i: nat): (r: Result<TokenId, IndexError>)
      reads this, token
      requires Valid()
      ensures r.Ok? <==> i < token.Balance(owner)
      ensures r.Ok? ==> r.value in token.owners && token.owners[r.value] == owner
      ensures r.Ok? ==> i < |OwnedList(owner)| && r.value == OwnedList(owner)[i]
      ensures r.Err? ==> r.error == IndexOutOfBounds
    {
      assert Indexes(OwnedList(owner), ownedTokensIndex, TokensOf(token.owners, owner));
      IndexesSize(OwnedList(owner), ownedTokensIndex, TokensOf(token.owners, owner));
      if i < |OwnedList(owner)| then Ok(OwnedList(owner)[i]) else Err(IndexOutOfBounds)
    }

    // ---- mutating entry points ----------------------------------------

    /** The effect of a completed mint of `id` to `to`: the registry
        records the new owner and balance, approvals and the burned set
        are untouched, `id` joins the end of the global list and of the
        list of `to`, and nothing else changes. */
    twostate predicate Minted(to: Address, id: TokenId)
      reads this, token
    {
      && token.owners == old(token.owners)[id := to]
      && token.Balance(to) == old(token.Balance(to)) + 1
      && (forall a :: a != to ==> token.Balance(a) == old(token.Balance(a)))
      && token.tokenApprovals == old(token.tokenApprovals)
      && token.operatorApprovals == old(token.operatorApprovals)
      && token.burned == old(token.burned)
      && token.log == old(token.log) + [Transfer(ZeroAddress, to, id)]
      && allTokens == old(allTokens) + [id]
      && OwnedList(to) == old(OwnedList(to)) + [id]
      && (forall a :: a != to ==> OwnedList(a) == old(OwnedList(a)))
    }

    /** `mint(to, id)`: the registry mint, then `id` is appended to the
        global list and to the list of `to`. */
    method Mint(to: Address, id: TokenId) returns (r: Outcome<Error>)
      requires Valid()
      modifies this, token
      ensures Valid()
      ensures r == old(token.MintCheck(to, id))
      ensures r.Revert? ==> token.Storage() == old(token.Storage()) && Index() == old(Index())
      ensures r.Done? ==> Minted(to, id)
    {
      ghost var before := token.owners;
      r := token.Mint(to, id);
      if r.Done? {
        AddTokenKeepsIndexed(allTokens, allTokensIndex, ownedTokens, ownedTokensIndex, before, to, id);
        allTokens, allTokensIndex := allTokens + [id], allTokensIndex[id := |allTokens|];
        var (owned', pos') := AddToOwner(ownedTokens, ownedTokensIndex, to, id);
        ownedTokens, ownedTokensIndex := owned', pos';
      }
    }

    /** `safeMint(to, id, data)`: the mint with all its index effects,
        then the receiver probe; a rejection rolls everything back. */
    method SafeMint(to: Address, id: TokenId, recipient: Recipient) returns (r: Outcome<Error>)
      requires Valid()
      modifies this, token
      ensures Valid()
      ensures r == if old(token.MintCheck(to, id)).Revert? then old(token.MintCheck(to, id))
                   else if !AcceptsTokens(recipient) then Revert(NonReceiver)
                   else Done
      ensures r.Revert? ==> token.Storage() == old(token.Storage()) && Index() == old(Index())
      ensures r.Done? ==> Minted(to, id)
    {
      var saved, savedIndex := token.Storage(), Index();
      r := Mint(to, id);
      if r.Done? && !AcceptsTokens(recipient) {
        token.Restore(saved);
        allTokens, allTokensIndex, ownedTokens, ownedTokensIndex := savedIndex.0, savedIndex.1, savedIndex.2, savedIndex.3;
        RestoredIsValid(this);
        r := Revert(NonReceiver);
      }
    }

    /** The effect of a completed transfer of `id` from `from` to `to`:
        the registry moves the token and clears its approval, the global
        list is untouched, `id` leaves the list of `from` by swap-and-pop
        and joins the end of the list of `to`, and nothing else changes. */
    twostate predicate Transferred(from: Address, to: Address, id: TokenId)
      reads this, token
    {
      && token.owners == old(token.owners)[id := to]
      && token.Balance(from) == old(token.Balance(from)) - 1
      && token.Balance(to) == old(token.Balance(to)) + 1
      && (forall a :: a != from && a != to ==> token.Balance(a) == old(token.Balance(a)))
      && token.tokenApprovals == old(token.tokenApprovals) - {id}
      && token.operatorApprovals == old(token.operatorApprovals)
      && token.burned == old(token.burned)
      && token.log == old(token.log) + [Transfer(from, to, id)]
      && allTokens == old(allTokens)
      && id in old(ownedTokensIndex) && old(ownedTokensIndex[id]) < |old(OwnedList(from))|
      && OwnedList(from) == SwapAndPop(old(OwnedList(from)), old(ownedTokensIndex[id]))
      && OwnedList(to) == old(OwnedList(to)) + [id]
      && (forall a :: a != from && a != to ==> OwnedList(a) == old(OwnedList(a)))
    }

    /** `transferFrom(from, to, id)` called by `caller`: the registry
        transfer, then `id` moves from the list of `from` (swap-and-pop)
        to the end of the list of `to`; the global list is untouched. */
    method TransferFrom(caller: Address, from: Address, to: Address, id: TokenId) returns (r: Outcome<Error>)
      requires Valid()
      modifies this, token
      ensures Valid()
      ensures r == old(token.TransferCheck(caller, from, to, id))
      ensures r.Revert? ==> token.Storage() == old(token.Storage()) && Index() == old(Index())
      ensures r.Done? ==> Transferred(from, to, id)
    {
      ghost var before := token.owners;
      r := token.TransferFrom(caller, from, to, id);
      if r.Done? {
        assert before.Keys == token.owners.Keys;
        MoveInLists(from, to, id, before);
      }
    }

    /** The list effect of a transfer of `id`, owned by `from` in
        `owners`, to `to`: the per-owner lists follow the new owner and the
        global list is untouched. */
    method MoveInLists(from: Address, to: Address, id: TokenId, ghost owners: map<TokenId, Address>)
      requires OwnerListsIndexed(ownedTokens, ownedTokensIndex, owners)
      requires id in owners && owners[id] == from && from != to
      modifies this
      ensures allTokens == old(allTokens) && allTokensIndex == old(allTokensIndex)
      ensures OwnerListsIndexed(ownedTokens, ownedTokensIndex, owners[id := to])
      ensures id in old(ownedTokensIndex) && old(ownedTokensIndex[id]) < |old(OwnedList(from))|
      ensures OwnedList(from) == SwapAndPop(old(OwnedList(from)), old(ownedTokensIndex[id]))
      ensures OwnedList(to) == old(OwnedList(to)) + [id]
      ensures forall a :: a != from && a != to ==> OwnedList(a) == old(OwnedList(a))
    {
      MoveBetweenOwnersKeepsIndexed(ownedTokens, ownedTokensIndex, owners, to, id);
      var (owned', pos') := MoveBetweenOwners(ownedTokens, ownedTokensIndex, from, to, id);
      ownedTokens, ownedTokensIndex := owned', pos';
    }

    /** `safeTransferFrom(from, to, id, data)` called by `caller`: the
        transfer with all its index effects, then the receiver probe; a
        rejection rolls everything back. */
    method SafeTransferFrom(caller: Address, from: Address, to: Address, id: TokenId, recipient: Recipient)
      returns (r: Outcome<Error>)
      requires Valid()
      modifies this, token
      ensures Valid()
      ensures r == if old(token.TransferCheck(caller, from, to, id)).Revert? then old(token.TransferCheck(caller, from, to, id))
                   else if !AcceptsTokens(recipient) then Revert(NonReceiver)
                   else Done
      ensures r.Revert? ==> token.Storage() == old(token.Storage()) && Index() == old(Index())
      ensures r.Done? ==> Transferred(from, to, id)
    {
      var saved, savedIndex := token.Storage(), Index();
      r := TransferFrom(caller, from, to, id);
      if r.Done? && !AcceptsTokens(recipient) {
        token.Restore(saved);
        allTokens, allTokensIndex, ownedTokens, ownedTokensIndex := savedIndex.0, savedIndex.1, savedIndex.2, savedIndex.3;
        RestoredIsValid(this);
        r := Revert(NonReceiver);
      }
    }

    /** The effect of a completed burn of `id`: the token, its approval
        and one unit of its owner's balance disappear, `id` joins the
        burned set, it leaves the global list and its owner's list by
        swap-and-pop, and nothing else changes. */
    twostate predicate Burned(id: TokenId)
      reads this, token
    {
      && id in old(token.owners)
      && var owner := old(token.owners[id]);
      && token.owners == old(token.owners) - {id}
      && token.Balance(owner) == old(token.Balance(owner)) - 1
      && (forall a :: a != owner ==> token.Balance(a) == old(token.Balance(a)))
      && token.tokenApprovals == old(token.tokenApprovals) - {id}
      && token.operatorApprovals == old(token.operatorApprovals)
      && token.burned == old(token.burned) + {id}
      && token.log == old(token.log) + [Transfer(owner, ZeroAddress, id)]
      && id in old(allTokensIndex) && old(allTokensIndex[id]) < |old(allTokens)|
      && allTokens == SwapAndPop(old(allTokens), old(allTokensIndex[id]))
      && id in old(ownedTokensIndex) && old(ownedTokensIndex[id]) < |old(OwnedList(owner))|
      && OwnedList(owner) == SwapAndPop(old(OwnedList(owner)), old(ownedTokensIndex[id]))
      && (forall a :: a != owner ==> OwnedList(a) == old(OwnedList(a)))
    }

    /** `burn(id)` called by `caller`: the registry burn, then `id` leaves
        the global list and its owner's list, each by swap-and-pop. */
    method Burn(caller: Address, id: TokenId) returns (r: Outcome<Error>)
      requires Valid()
      modifies this, token
      ensures Valid()
      ensures r == old(token.BurnCheck(caller, id))
      ensures r.Revert? ==> token.Storage() == old(token.Storage()) && Index() == old(Index())
      ensures r.Done? ==> Burned(id)
    {
      ghost var before := token.owners;
      var from := token.OwnerOrZero(id);
      r := token.Burn(caller, id);
      if r.Done? {
        SwapAndPopKeepsIndexes(allTokens, allTokensIndex, before.Keys, id);
        RemoveFromOwnerKeepsIndexed(ownedTokens, ownedTokensIndex, before, id);
        allTokens, allTokensIndex := SwapAndPop(allTokens, allTokensIndex[id]), SwapAndPopIndex(allTokens, allTokensIndex, id);
        var (owned', pos') := RemoveFromOwner(ownedTokens, ownedTokensIndex, from, id);
        ownedTokens, ownedTokensIndex := owned', pos';
      }
    }

    /** A batch of mints (or safe mints to `recipient`) of `ids` to `to`,
        issued in order, each committing or reverting on its own; the
        outcome is the first revert, if any. Fresh distinct identifiers
        to a non-zero accepting account all land, in order, at the end of
        the global list and of the receiver's list; a batch to the zero
        address or (safe) to a rejecting contract changes nothing. */
    method MintBatch(to: Address, ids: seq<TokenId>, safe: bool, recipient: Recipient) returns (r: Outcome<Error>)
      requires Valid()
      modifies this, token
      ensures Valid()
      ensures token.burned == old(token.burned)
      ensures to != ZeroAddress && Distinct(ids) && (forall i :: 0 <= i < |ids| ==> !old(token.Unavailable(ids[i])))
              && (!safe || AcceptsTokens(recipient)) ==>
        && r == Done
        && allTokens == old(allTokens) + ids
        && OwnedList(to) == old(OwnedList(to)) + ids
        && (forall a :: a != to ==> OwnedList(a) == old(OwnedList(a)))
        && token.Balance(to) == old(token.Balance(to)) + |ids|
        && (forall id :: id in token.owners <==> id in old(token.owners) || id in ids)
        && (forall id :: id in ids ==> token.owners[id] == to)
      ensures to == ZeroAddress || (safe && !AcceptsTokens(recipient)) ==>
        token.Storage() == old(token.Storage()) && Index() == old(Index())
      ensures to == ZeroAddress && ids != [] ==> r == Revert(MintToZeroAddress)
      ensures (to != ZeroAddress && safe && !AcceptsTokens(recipient) && ids != []
               && !old(token.Unavailable(ids[0]))) ==> r == Revert(NonReceiver)
    {
      // a plain mint has the effects of a safe mint to an account
      // without code
      var probe := if safe then recipient else ExternallyOwned;
      if to == ZeroAddress || !AcceptsTokens(probe) {
        r := MintBatchRejected(to, ids, probe);
      } else {
        r := MintBatchAccepted(to, ids, probe);
      }
    }

    /** The batch when every mint reverts: to the zero address, or to a
        contract that rejects tokens. */
    method MintBatchRejected(to: Address, ids: seq<TokenId>, probe: Recipient) returns (r: Outcome<Error>)
      requires Valid()
      requires to == ZeroAddress || !AcceptsTokens(probe)
      modifies this, token
      ensures Valid()
      ensures token.Storage() == old(token.Storage()) && Index() == old(Index())
      ensures to == ZeroAddress && ids != [] ==> r == Revert(MintToZeroAddress)
      ensures (to != ZeroAddress && ids != [] && !old(token.Unavailable(ids[0]))) ==> r == Revert(NonReceiver)
    {
      ghost var storage0, index0 := token.Storage(), Index();
      r := Done;
      var k := 0;
      while k < |ids|
        invariant 0 <= k <= |ids|
        invariant Valid()
        invariant token.Storage() == storage0 && Index() == index0
        invariant k == 0 ==> r == Done
        invariant to == ZeroAddress && k > 0 ==> r == Revert(MintToZeroAddress)
        invariant (to != ZeroAddress && k > 0 && !old(token.Unavailable(ids[0]))) ==> r == Revert(NonReceiver)
      {
        var rk := SafeMint(to, ids[k], probe);
        if r.Done? && rk.Revert? {
          r := rk;
        }
        k := k + 1;
      }
    }

    /** The `k`-th mint of an accepted batch of fresh identifiers. */
    method MintBatchStep(to: Address, ids: seq<TokenId>, k: nat, probe: Recipient, ghost all0: seq<TokenId>,
                         ghost owned0: map<Address, seq<TokenId>>, ghost owners0: map<TokenId, Address>, ghost balance0: nat)
      returns (r: Outcome<Error>)
      requires Valid()
      requires to != ZeroAddress && AcceptsTokens(probe)
      requires k < |ids| && Distinct(ids)
      requires forall i :: 0 <= i < |ids| ==> ids[i] !in owners0 && (token.remintAfterBurn || ids[i] !in token.burned)
      requires BatchProgress(allTokens, ownedTokens, token.owners, token.Balance(to), to, ids, k, all0, owned0, owners0, balance0)
      modifies this, token
      ensures Valid()
      ensures token.burned == old(token.burned)
      ensures r == Done
      ensures BatchProgress(allTokens, ownedTokens, token.owners, token.Balance(to), to, ids, k + 1, all0, owned0, owners0, balance0)
    {
      ghost var allBefore, ownedBefore, ownersBefore, balanceBefore := allTokens, ownedTokens, token.owners, token.Balance(to);
      assert ids[k] !in ids[..k];
      assert !token.Unavailable(ids[k]);
      r := SafeMint(to, ids[k], probe);
      forall a | a != to
        ensures ListOf(ownedTokens, a) == ListOf(ownedBefore, a)
      {
        assert OwnedList(a) == old(OwnedList(a));
      }
      BatchProgressStep(allBefore, ownedBefore, ownersBefore, balanceBefore,
                        allTokens, ownedTokens, token.owners, token.Balance(to),
                        to, ids, k, all0, owned0, owners0, balance0);
    }

    /** The batch to a non-zero account that accepts tokens. */
    method MintBatchAccepted(to: Address, ids: seq<TokenId>, probe: Recipient) returns (r: Outcome<Error>)
      requires Valid()
      requires to != ZeroAddress && AcceptsTokens(probe)
      modifies this, token
      ensures Valid()
      ensures token.burned == old(token.burned)
      ensures Distinct(ids) && (forall i :: 0 <= i < |ids| ==> !old(token.Unavailable(ids[i]))) ==>
        && r == Done
        && allTokens == old(allTokens) + ids
        && OwnedList(to) == old(OwnedList(to)) + ids
        && (forall a :: a != to ==> OwnedList(a) == old(OwnedList(a)))
        && token.Balance(to) == old(token.Balance(to)) + |ids|
        && (forall id :: id in token.owners <==> id in old(token.owners) || id in ids)
        && (forall id :: id in ids ==> token.owners[id] == to)
    {
      // both branches perform the same safe mints in the same order; the
      // test only selects the proof
      var allFresh := Distinct(ids) && (forall i :: 0 <= i < |ids| ==> !token.Unavailable(ids[i]));
      if allFresh {
        r := MintBatchFresh(to, ids, probe);
      } else {
        r := MintBatchAny(to, ids, probe);
      }
    }

    /** The accepted batch of distinct identifiers none of which is
        unavailable: every mint succeeds and extends the lists in order. */
    method MintBatchFresh(to: Address, ids: seq<TokenId>, probe: Recipient) returns (r: Outcome<Error>)
      requires Valid()
      requires to != ZeroAddress && AcceptsTokens(probe)
      requires Distinct(ids) && forall i :: 0 <= i < |ids| ==> !token.Unavailable(ids[i])
      modifies this, token
      ensures Valid()
      ensures token.burned == old(token.burned)
      ensures r == Done
      ensures BatchProgress(allTokens, ownedTokens, token.owners, token.Balance(to), to, ids, |ids|,
                            old(allTokens), old(ownedTokens), old(token.owners), old(token.Balance(to)))
    {
      ghost var all0, owned0, owners0, balance0 := allTokens, ownedTokens, token.owners, token.Balance(to);
      assert ids[..0] == [];
      assert all0 + ids[..0] == all0 && ListOf(owned0, to) + ids[..0] == ListOf(owned0, to);
      r := Done;
      var k := 0;
      while k < |ids|
        invariant 0 <= k <= |ids|
        invariant Valid()
        invariant token.burned == old(token.burned)
        invariant BatchProgress(allTokens, ownedTokens, token.owners, token.Balance(to), to, ids, k, all0, owned0, owners0, balance0)
      {
        var _ := MintBatchStep(to, ids, k, probe, all0, owned0, owners0, balance0);
        k := k + 1;
      }
    }

    /** The accepted batch in general: the mints run in order and the
        first revert, if any, is reported. */
    method MintBatchAny(to: Address, ids: seq<TokenId>, probe: Recipient) returns (r: Outcome<Error>)
      requires Valid()
      requires to != ZeroAddress && AcceptsTokens(probe)
      modifies this, token
      ensures Valid()
      ensures token.burned == old(token.burned)
    {
      r := Done;
      var k := 0;
      while k < |ids|
        invariant 0 <= k <= |ids|
        invariant Valid()
        invariant token.burned == old(token.burned)
      {
        var rk := SafeMint(to, ids[k], probe);
        if r.Done? && rk.Revert? {
          r := rk;
        }
        k := k + 1;
      }
    }
  }

  /** Rolling the registry and its index back to the state at the start
      of a call restores the enumeration invariant. */
  twostate lemma RestoredIsValid(e: EnumerableToken)
    requires old(e.Valid())
    requires e.token.Storage() == old(e.token.Storage()) && e.Index() == old(e.Index())
    ensures e.Valid()
  {
  }

  /** After the first `k` mints of an accepted batch of fresh `ids` to
      `to`, the global list `all`, the owner lists `owned`, the owners
      `owners` and the balance `balance` of `to` extend their starting
      values (suffixed 0) by exactly those identifiers, in order. */
  ghost predicate BatchProgress(all: seq<TokenId>, owned: map<Address, seq<TokenId>>, owners: map<TokenId, Address>,
                                balance: nat, to: Address, ids: seq<TokenId>, k: nat, all0: seq<TokenId>,
                                owned0: map<Address, seq<TokenId>>, owners0: map<TokenId, Address>, balance0: nat)
    requires k <= |ids|
  {
    && all == all0 + ids[..k]
    && ListOf(owned, to) == ListOf(owned0, to) + ids[..k]
    && (forall a :: a != to ==> ListOf(owned, a) == ListOf(owned0, a))
    && balance == balance0 + k
    && (forall id :: id in owners <==> id in owners0 || id in ids[..k])
    && (forall id :: id in ids[..k] ==> owners[id] == to)
  }

  /** One more mint of the batch, of `ids[k]` to `to`, extends the
      progress from `k` to `k + 1` identifiers. */
  lemma BatchProgressStep(all: seq<TokenId>, owned: map<Address, seq<TokenId>>, owners: map<TokenId, Address>, balance: nat,
                          all': seq<TokenId>, owned': map<Address, seq<TokenId>>, owners': map<TokenId, Address>, balance': nat,
                          to: Address, ids: seq<TokenId>, k: nat, all0: seq<TokenId>,
                          owned0: map<Address, seq<TokenId>>, owners0: map<TokenId, Address>, balance0: nat)
    requires k < |ids|
    requires BatchProgress(all, owned, owners, balance, to, ids, k, all0, owned0, owners0, balance0)
    requires all' == all + [ids[k]]
    requires ListOf(owned', to) == ListOf(owned, to) + [ids[k]]
    requires forall a :: a != to ==> ListOf(owned', a) == ListOf(owned, a)
    requires balance' == balance + 1
    requires owners' == owners[ids[k] := to]
    ensures BatchProgress(all', owned', owners', balance', to, ids, k + 1, all0, owned0, owners0, balance0)
  {
    assert ids[..k + 1] == ids[..k] + [ids[k]];
    assert all0 + ids[..k + 1] == all';
    assert ListOf(owned0, to) + ids[..k + 1] == ListOf(owned', to);
  }

  /** No identifier occurs twice in `ids`. */
  predicate Distinct(ids: seq<TokenId>) {
    forall i, j :: 0 <= i < j < |ids| ==> ids[i] != ids[j]
  }

  // ---- properties of the index ----------------------------------------

  /** Every balance equals the length of that account's list. */
  lemma BalanceIsListLength(e: EnumerableToken, a: Address)
    requires e.Valid()
    ensures e.token.Balance(a) == |e.OwnedList(a)|
  {
    assert Indexes(e.OwnedList(a), e.ownedTokensIndex, TokensOf(e.token.owners, a));
    IndexesSize(e.OwnedList(a), e.ownedTokensIndex, TokensOf(e.token.owners, a));
  }

  /** Reading the global list at every index below `totalSupply()` yields
      each existing token exactly once. */
  lemma EnumerationIsExact(e: EnumerableToken)
    requires e.Valid()
    ensures forall i: nat, j: nat :: i < j < e.TotalSupply() ==> e.TokenByIndex(i) != e.TokenByIndex(j)
    ensures (set i: nat | i < e.TotalSupply() :: e.TokenByIndex(i).value) == e.token.owners.Keys
  {
    var ids := e.token.owners.Keys;
    IndexesEnumerate(e.allTokens, e.allTokensIndex, ids);
    var read := set i: nat | i < e.TotalSupply() :: e.TokenByIndex(i).value;
    forall t | t in ids
      ensures t in read
    {
      var i := e.allTokensIndex[t];
      assert i < e.TotalSupply() && e.TokenByIndex(i) == Ok(t);
    }
  }
}
