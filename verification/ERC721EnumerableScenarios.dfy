/** The enumeration's documented scenarios as verified examples: each
    method replays one scenario on a freshly deployed enumerable registry,
    minting batches in array order, and its `ensures` states the answers
    the scenario expects. Accounts are parameters, so each example holds
    for every choice of distinct non-zero accounts and for either
    re-minting policy. */
module ERC721EnumerableScenarios {
  import opened Types
  import opened ERC721
  import opened ERC721Enumerable

  /** Deploys a registry and mints the distinct `ids` to `to`, as the
      scenarios' batch helper does. */
  method DeployWithBatch(remint: bool, to: Address, ids: seq<TokenId>, safe: bool, recipient: Recipient)
    returns (e: EnumerableToken, r: Outcome<Error>)
    requires to != ZeroAddress && Distinct(ids) && (!safe || AcceptsTokens(recipient))
    ensures fresh(e) && fresh(e.token) && e.Valid()
    ensures r == Done && e.token.burned == {}
    ensures e.allTokens == ids && e.OwnedList(to) == ids
    ensures forall a :: a != to ==> e.OwnedList(a) == []
    ensures forall i :: 0 <= i < |ids| ==> ids[i] in e.token.owners && e.token.owners[ids[i]] == to
  {
    e := new EnumerableToken(remint);
    assert forall a :: e.OwnedList(a) == [];
    assert forall i :: 0 <= i < |ids| ==> !e.token.Unavailable(ids[i]);
    r := e.MintBatch(to, ids, safe, recipient);
  }

  /** No identifier of the second half of a distinct sequence occurs in
      its first half. */
  lemma DistinctHalves(ids1: seq<TokenId>, ids2: seq<TokenId>)
    requires Distinct(ids1 + ids2)
    ensures forall i :: 0 <= i < |ids2| ==> ids2[i] !in ids1
  {
    forall i | 0 <= i < |ids2|
      ensures ids2[i] !in ids1
    {
      forall j | 0 <= j < |ids1|
        ensures ids1[j] != ids2[i]
      {
        assert (ids1 + ids2)[j] == ids1[j] && (ids1 + ids2)[|ids1| + i] == ids2[i];
      }
    }
  }

  /** Deploys a registry, mints the batch `ids1` to `a`, then the batch
      `ids2` to `b`. */
  method DeployWithTwoBatches(remint: bool, a: Address, ids1: seq<TokenId>, b: Address, ids2: seq<TokenId>)
    returns (e: EnumerableToken)
    requires a != ZeroAddress && b != ZeroAddress && a != b
    requires Distinct(ids1 + ids2)
    ensures fresh(e) && fresh(e.token) && e.Valid()
    ensures e.allTokens == ids1 + ids2
    ensures e.OwnedList(a) == ids1 && e.OwnedList(b) == ids2
  {
    assert Distinct(ids1) by {
      forall i, j | 0 <= i < j < |ids1| ensures ids1[i] != ids1[j] {
        assert ids1[i] == (ids1 + ids2)[i] && ids1[j] == (ids1 + ids2)[j];
      }
    }
    assert Distinct(ids2) by {
      forall i, j | 0 <= i < j < |ids2| ensures ids2[i] != ids2[j] {
        assert ids2[i] == (ids1 + ids2)[|ids1| + i] && ids2[j] == (ids1 + ids2)[|ids1| + j];
      }
    }
    var r1;
    e, r1 := DeployWithBatch(remint, a, ids1, false, ExternallyOwned);
    DistinctHalves(ids1, ids2);
    var _ := e.MintBatch(b, ids2, false, ExternallyOwned);
  }

  method SupplyOfTwoBatches(remint: bool, a: Address, b: Address) returns (supply: nat, byIndex: Result<TokenId, IndexError>)
    requires a != ZeroAddress && b != ZeroAddress && a != b
    ensures supply == 6
    ensures byIndex == Ok(4)
  {
    var e := DeployWithTwoBatches(remint, a, [1, 2, 3], b, [4, 5, 6]);
    supply := e.TotalSupply();
    byIndex := e.TokenByIndex(3);
  }

  method TokenByIndexOutOfBounds(remint: bool, owner: Address) returns (r: Result<TokenId, IndexError>)
    requires owner != ZeroAddress
    ensures r == Err(IndexOutOfBounds) && IndexReason(r.error) == "Index out of bounds"
  {
    var e, _ := DeployWithBatch(remint, owner, [1, 2, 3], false, ExternallyOwned);
    r := e.TokenByIndex(4);
  }

  /** Each owner's list is read by position; the second batch leaves the
      first owner's list as it was. */
  method TokenOfOwnerByIndexPerOwner(remint: bool, a: Address, b: Address)
    returns (first: Result<TokenId, IndexError>, second: Result<TokenId, IndexError>)
    requires a != ZeroAddress && b != ZeroAddress && a != b
    ensures first == Ok(3) && second == Ok(5)
  {
    var e := DeployWithTwoBatches(remint, a, [1, 2, 3], b, [4, 5, 6]);
    first := e.TokenOfOwnerByIndex(a, 2);
    second := e.TokenOfOwnerByIndex(b, 1);
  }

  method TokenOfOwnerByIndexOutOfBounds(remint: bool, owner: Address) returns (r: Result<TokenId, IndexError>)
    requires owner != ZeroAddress
    ensures r == Err(IndexOutOfBounds)
  {
    var e, _ := DeployWithBatch(remint, owner, [1, 2], false, ExternallyOwned);
    r := e.TokenOfOwnerByIndex(owner, 2);
  }

  method BurnLastToken(remint: bool, owner: Address)
    returns (before: nat, after: nat, byIndex: Result<TokenId, IndexError>, ofOwner: Result<TokenId, IndexError>)
    requires owner != ZeroAddress
    ensures before == 3 && after == 2
    ensures byIndex == Ok(2) && ofOwner == Ok(2)
  {
    var ids := [1, 2, 3];
    var e, _ := DeployWithBatch(remint, owner, ids, false, ExternallyOwned);
    before := e.TotalSupply();
    assert ids[2] == 3;
    var _ := e.Burn(owner, 3);
    assert |e.allTokens| == 2 && e.allTokens[1] == 2 && e.OwnedList(owner)[1] == 2;
    after := e.TotalSupply();
    byIndex := e.TokenByIndex(1);
    ofOwner := e.TokenOfOwnerByIndex(owner, 1);
  }

  /** Burning from the middle moves the last token into the hole. */
  method BurnMiddleToken(remint: bool, owner: Address) returns (before: nat, after: nat, byIndex: Result<TokenId, IndexError>)
    requires owner != ZeroAddress
    ensures before == 4 && after == 3
    ensures byIndex == Ok(4)
  {
    var ids := [1, 2, 3, 4];
    var e, _ := DeployWithBatch(remint, owner, ids, false, ExternallyOwned);
    before := e.TotalSupply();
    assert ids[1] == 2 && ids[3] == 4;
    assert e.allTokensIndex[2] == 1 && |e.allTokens| == 4;
    var _ := e.Burn(owner, 2);
    assert |e.allTokens| == 3 && e.allTokens[1] == 4;
    after := e.TotalSupply();
    byIndex := e.TokenByIndex(1);
  }

  method SafeMintBatchToAccount(remint: bool, owner: Address) returns (r: Outcome<Error>, supply: nat)
    requires owner != ZeroAddress
    ensures r == Done && supply == 3
  {
    var e;
    e, r := DeployWithBatch(remint, owner, [1, 2, 3], true, ExternallyOwned);
    supply := e.TotalSupply();
  }

  method SafeMintBatchToNonReceiver(remint: bool, receiver: Address) returns (r: Outcome<Error>, supply: nat)
    requires receiver != ZeroAddress
    ensures r == Revert(NonReceiver) && Reason(r.error) == "Non erc721 receiver!"
    ensures supply == 0
  {
    var e := new EnumerableToken(remint);
    r := e.MintBatch(receiver, [1], true, Receiver(false));
    supply := e.TotalSupply();
  }

  method SafeMintBatchToReceiver(remint: bool, receiver: Address) returns (r: Outcome<Error>, supply: nat)
    requires receiver != ZeroAddress
    ensures r == Done && supply == 3
  {
    var e;
    e, r := DeployWithBatch(remint, receiver, [1, 2, 3], true, Receiver(true));
    supply := e.TotalSupply();
  }
}
